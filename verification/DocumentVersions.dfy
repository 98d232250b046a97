// The life of document versions: knowledge/ingestion_executor.py:81-163,
// knowledge/ingestion_service.py:17-76, knowledge/lifecycle_service.py:29-81 and
// knowledge/service.py:414-500.

module DocumentVersions {
  import opened Outcomes

  datatype VersionStatus = Uploaded | IngestionPending | Ingesting | Ready | Superseded | Failed | VersionDeleted

  datatype DocumentStatus = DocUploaded | DocPending | DocIngesting | DocReady | DocFailed | DocDeleted

  datatype SourceStatus = Registered | SourcePending | SourceIngesting | Ingested | IngestionFailed | SourceDeleted

  // deleted stands for deleted_at, chunks for the number of live chunk rows.
  datatype Version = Version(document: nat, number: nat, status: VersionStatus, deleted: bool, checksum: string, chunks: nat)

  datatype Document = Document(source: nat, current: Option<nat>, status: DocumentStatus, deleted: bool)

  datatype Source = Source(status: SourceStatus, approved: bool, deleted: bool)

  datatype Store = Store(sources: map<nat, Source>, documents: map<nat, Document>, versions: map<nat, Version>)

  const EMPTY := Store(map[], map[], map[])

  // What an execution reads of a version's lineage before it extracts the text.
  datatype Loaded = Loaded(version: VersionStatus, document: DocumentStatus, source: SourceStatus, hasCurrent: bool)

  // What happens to a version, each in one transaction. Ids are fresh; a failed
  // transaction changes nothing and is not an event. An execution whose writes
  // follow its check at once is Executed; WrittenLate is the writes of one that
  // read and checked the rows earlier, while other events came between.
  datatype Event =
    | SourceAdded(source: nat, approved: bool)
    | Approved(source: nat, approved: bool)
    | DocumentUploaded(source: nat, document: nat, version: nat, checksum: string)
    | VersionUploaded(document: nat, version: nat, checksum: string)
    | Submitted(version: nat, activeJob: bool)
    | Executed(version: nat, chunks: nat)
    | WrittenLate(version: nat, chunks: nat, loaded: Loaded)
    | Finalized(version: nat, checksum: string, chunks: nat)
    | CleanedUp(version: nat, retryable: bool, terminal: bool)
    | RolledBackTo(document: nat, version: nat)
    | DocumentRemoved(document: nat)
    | SourceRemoved(source: nat)

  // ---- lineage ----

  predicate HasLineage(s: Store, version: nat) {
    && version in s.versions
    && s.versions[version].document in s.documents
    && s.documents[s.versions[version].document].source in s.sources
  }

  function DocumentOf(s: Store, version: nat): Document
    requires HasLineage(s, version)
  {
    s.documents[s.versions[version].document]
  }

  function SourceOf(s: Store, version: nat): Source
    requires HasLineage(s, version)
  {
    s.sources[DocumentOf(s, version).source]
  }

  predicate LiveDocument(s: Store, document: nat) {
    && document in s.documents && s.documents[document].source in s.sources
    && !s.documents[document].deleted && !s.sources[s.documents[document].source].deleted
  }

  predicate LiveVersion(s: Store, version: nat) {
    version in s.versions && !s.versions[version].deleted && LiveDocument(s, s.versions[version].document)
  }

  function SetVersion(s: Store, version: nat, v: Version): Store {
    s.(versions := s.versions[version := v])
  }

  // The statuses of a document that has no current version yet, and its source's.
  function ShowProgress(s: Store, document: nat, status: DocumentStatus, sourceStatus: SourceStatus): Store
    requires document in s.documents && s.documents[document].source in s.sources
  {
    var d := s.documents[document];
    if d.current.Some? then s
    else s.(documents := s.documents[document := d.(status := status)],
            sources := s.sources[d.source := s.sources[d.source].(status := sourceStatus)])
  }

  // ---- the steps ----

  function UploadVersion(s: Store, document: nat, version: nat, number: nat, checksum: string): Store
    requires document in s.documents
  {
    s.(documents := s.documents[document := s.documents[document].(status := DocUploaded)],
       versions := s.versions[version := Version(document, number, Uploaded, false, checksum, 0)])
  }

  // mark_pending, after the checks of submit_document_ingestion.
  function Submit(s: Store, version: nat, activeJob: bool): Result<Store> {
    if !LiveVersion(s, version) then Raised(404)
    else
      var v := s.versions[version];
      if !SourceOf(s, version).approved then Raised(409)
      else if v.status == IngestionPending && activeJob then Raised(409)
      else if v.status !in {Uploaded, Failed, IngestionPending} then Raised(409)
      else Ok(ShowProgress(SetVersion(s, version, v.(status := IngestionPending)), v.document, DocPending, SourcePending))
  }

  // _ensure_ingestable
  predicate Ingestable(s: Store, version: nat) {
    LiveVersion(s, version) && s.versions[version].status in {IngestionPending, Ingesting}
  }

  // What execute writes once the text is extracted. Extraction yields at least
  // one chunk or fails.
  function WriteChunks(s: Store, version: nat, chunks: nat): Store
    requires HasLineage(s, version)
  {
    var v := s.versions[version];
    ShowProgress(SetVersion(s, version, v.(status := Ingesting, chunks := chunks)), v.document, DocIngesting, SourceIngesting)
  }

  function LoadedFrom(s: Store, version: nat): Loaded
    requires HasLineage(s, version)
  {
    var d := DocumentOf(s, version);
    Loaded(s.versions[version].status, d.status, SourceOf(s, version).status, d.current.Some?)
  }

  // The same writes on rows that were loaded earlier: what they show is decided on
  // the loaded document, and a column set to the value that was loaded is not
  // written back.
  function WriteLate(s: Store, version: nat, chunks: nat, loaded: Loaded): Store
    requires HasLineage(s, version)
  {
    var v, d, k := s.versions[version], DocumentOf(s, version), SourceOf(s, version);
    Store(s.sources[d.source := if loaded.hasCurrent || loaded.source == SourceIngesting then k else k.(status := SourceIngesting)],
          s.documents[v.document := if loaded.hasCurrent || loaded.document == DocIngesting then d else d.(status := DocIngesting)],
          s.versions[version := v.(chunks := chunks, status := if loaded.version == Ingesting then v.status else Ingesting)])
  }

  function Execute(s: Store, version: nat, chunks: nat): Result<Store> {
    if !Ingestable(s, version) || chunks == 0 then Raised(422) else Ok(WriteChunks(s, version, chunks))
  }

  // Makes a version the current one of its document.
  function Activate(s: Store, version: nat): Store
    requires HasLineage(s, version)
  {
    var v := s.versions[version];
    var d := DocumentOf(s, version);
    var superseded :=
      if d.current.Some? && d.current.value != version && d.current.value in s.versions && s.versions[d.current.value].status == Ready
      then s.versions[d.current.value := s.versions[d.current.value].(status := Superseded)] else s.versions;
    s.(versions := superseded[version := v.(status := Ready)],
       documents := s.documents[v.document := d.(current := Some(version), status := DocReady)],
       sources := s.sources[d.source := s.sources[d.source].(status := Ingested)])
  }

  // finalize_document_ingestion
  function Finalize(s: Store, version: nat, checksum: string, chunks: nat): Result<Store> {
    if !Ingestable(s, version) then Raised(422)
    else if !SourceOf(s, version).approved then Raised(403)
    else if checksum != s.versions[version].checksum || s.versions[version].chunks != chunks || chunks == 0 then Raised(422)
    else Ok(Activate(s, version))
  }

  // cleanup_document_ingest_outputs
  function Cleanup(s: Store, version: nat, retryable: bool, terminal: bool): Store {
    if version !in s.versions || s.versions[version].deleted || s.versions[version].status == Ready then
      s
    else
      var v := s.versions[version];
      var status := if retryable then IngestionPending else if terminal then Failed else Uploaded;
      var cleaned := SetVersion(s, version, v.(status := status, chunks := 0));
      if HasLineage(s, version)
      then ShowProgress(cleaned, v.document, if terminal then DocFailed else DocUploaded, if terminal then IngestionFailed else Registered)
      else cleaned
  }

  // rollback_document_version
  function RollBackTo(s: Store, document: nat, version: nat): Result<Store> {
    if !LiveDocument(s, document) then Raised(404)
    else if version !in s.versions || s.versions[version].document != document || s.versions[version].deleted then Raised(404)
    else if s.versions[version].status !in {Ready, Superseded} then Raised(409)
    else if s.documents[document].current == Some(version) then Ok(s)
    else Ok(Activate(s, version))
  }

  function Tombstone(v: Version): Version {
    v.(status := VersionDeleted, deleted := true)
  }

  // _tombstone_document, for every document of a set
  function RemoveDocuments(s: Store, documents: set<nat>): Store {
    s.(documents := map d | d in s.documents ::
                      if d in documents then s.documents[d].(status := DocDeleted, deleted := true) else s.documents[d],
       versions := map v | v in s.versions ::
                     if s.versions[v].document in documents then Tombstone(s.versions[v]) else s.versions[v])
  }

  function DocumentsOf(s: Store, source: nat): set<nat> {
    set d | d in s.documents && s.documents[d].source == source
  }

  // _tombstone_source
  function RemoveSource(s: Store, source: nat): Store
    requires source in s.sources
  {
    RemoveDocuments(s.(sources := s.sources[source := s.sources[source].(status := SourceDeleted, deleted := true)]), DocumentsOf(s, source))
  }

  // One more than the largest version number of a document.
  ghost function NextNumber(s: Store, document: nat): (n: nat)
    ensures forall v :: v in s.versions && s.versions[v].document == document ==> s.versions[v].number < n
  {
    var numbers := set v | v in s.versions && s.versions[v].document == document :: s.versions[v].number;
    assert forall v :: v in s.versions && s.versions[v].document == document ==> s.versions[v].number in numbers;
    MaxOf(numbers) + 1
  }

  ghost function Happen(s: Store, e: Event): Store {
    match e
    case SourceAdded(source, approved) =>
      if source in s.sources then s else s.(sources := s.sources[source := Source(Registered, approved, false)])
    case Approved(source, approved) =>
      if source !in s.sources || s.sources[source].deleted then s
      else s.(sources := s.sources[source := s.sources[source].(approved := approved)])
    case DocumentUploaded(source, document, version, checksum) =>
      if source !in s.sources || s.sources[source].deleted || document in s.documents || version in s.versions then s
      else UploadVersion(s.(documents := s.documents[document := Document(source, None, DocUploaded, false)]), document, version, 1, checksum)
    case VersionUploaded(document, version, checksum) =>
      if !LiveDocument(s, document) || version in s.versions then s
      else UploadVersion(s, document, version, NextNumber(s, document), checksum)
    case Submitted(version, activeJob) => Committed(s, Submit(s, version, activeJob))
    case Executed(version, chunks) => Committed(s, Execute(s, version, chunks))
    case WrittenLate(version, chunks, loaded) => if HasLineage(s, version) && chunks > 0 then WriteLate(s, version, chunks, loaded) else s
    case Finalized(version, checksum, chunks) => Committed(s, Finalize(s, version, checksum, chunks))
    case CleanedUp(version, retryable, terminal) => Cleanup(s, version, retryable, terminal)
    case RolledBackTo(document, version) => Committed(s, RollBackTo(s, document, version))
    case DocumentRemoved(document) => if !LiveDocument(s, document) then s else RemoveDocuments(s, {document})
    case SourceRemoved(source) => if source !in s.sources || s.sources[source].deleted then s else RemoveSource(s, source)
  }

  function Committed(s: Store, result: Result<Store>): Store {
    if result.Ok? then result.value else s
  }

  ghost function After(s: Store, events: seq<Event>): Store {
    if events == [] then s else Happen(After(s, events[..|events| - 1]), events[|events| - 1])
  }

  // ---- the invariant ----

  ghost predicate VersionFits(s: Store, version: nat)
    requires version in s.versions
  {
    var v := s.versions[version];
    && HasLineage(s, version)
    && (v.deleted <==> v.status == VersionDeleted)
    && (v.deleted <==> DocumentOf(s, version).deleted)
    && (v.status == Ready ==> DocumentOf(s, version).current == Some(version))
    && (v.status in {Ready, Superseded} ==> v.chunks > 0)
  }

  ghost predicate DocumentFits(s: Store, document: nat)
    requires document in s.documents
  {
    var d := s.documents[document];
    && d.source in s.sources
    && (s.sources[d.source].deleted ==> d.deleted)
    && (d.current.Some? ==>
         && d.current.value in s.versions && s.versions[d.current.value].document == document
         && (!d.deleted ==> s.versions[d.current.value].status == Ready))
  }

  ghost predicate Good(s: Store) {
    && (forall v :: v in s.versions ==> VersionFits(s, v))
    && (forall d :: d in s.documents ==> DocumentFits(s, d))
  }

  // No two versions of a document have the same number.
  ghost predicate Numbered(s: Store) {
    forall a, b :: a in s.versions && b in s.versions && a != b && s.versions[a].document == s.versions[b].document ==>
      s.versions[a].number != s.versions[b].number
  }

  // The columns that never change once a version exists.
  ghost predicate KeepsNumbers(s: Store, s': Store) {
    && s.versions.Keys <= s'.versions.Keys
    && forall v :: v in s.versions ==> s'.versions[v].document == s.versions[v].document && s'.versions[v].number == s.versions[v].number
  }

  lemma HappenNumbersFreshly(s: Store, e: Event)
    requires Good(s) && Numbered(s)
    ensures Numbered(Happen(s, e))
  {
    HappenKeepsNumbers(s, e);
    var s' := Happen(s, e);
    forall a, b | a in s'.versions && b in s'.versions && a != b && s'.versions[a].document == s'.versions[b].document
      ensures s'.versions[a].number != s'.versions[b].number
    {
      if a !in s.versions {
        NewVersionIsHighest(s, e, a, b);
      } else if b !in s.versions {
        NewVersionIsHighest(s, e, b, a);
      }
    }
  }

  lemma NewVersionIsHighest(s: Store, e: Event, a: nat, b: nat)
    requires Good(s) && a in Happen(s, e).versions && a !in s.versions
    ensures var s' := Happen(s, e);
            && s'.versions.Keys == s.versions.Keys + {a}
            && (b in s.versions && s.versions[b].document == s'.versions[a].document ==> s.versions[b].number < s'.versions[a].number)
  {
    if b in s.versions {
      assert VersionFits(s, b);
    }
  }

  // No event takes a version away, moves it to another document or renumbers it.
  lemma HappenKeepsNumbers(s: Store, e: Event)
    ensures KeepsNumbers(s, Happen(s, e))
  {
  }

  // Two stores whose documents differ in nothing but statuses, and so do their
  // sources.
  ghost predicate SamePlaces(s: Store, s': Store) {
    && s'.documents.Keys == s.documents.Keys && s'.sources.Keys == s.sources.Keys
    && (forall d :: d in s.documents ==>
          s'.documents[d] == s.documents[d].(status := s'.documents[d].status))
    && (forall k :: k in s.sources ==> s'.sources[k].deleted == s.sources[k].deleted)
  }

  // One version changed, but for its document, in no way that the invariant of
  // another row looks at.
  lemma OneVersionKeepsGood(s: Store, s': Store, version: nat)
    requires Good(s) && SamePlaces(s, s')
    requires version in s'.versions && s'.versions == s.versions[version := s'.versions[version]]
    requires version in s.versions ==> s'.versions[version].document == s.versions[version].document
    requires version in s.versions ==> s.versions[version].status == Ready ==> s'.versions[version].status == Ready || DocumentOf(s, version).deleted
    requires VersionFits(s', version)
    ensures Good(s')
  {
    forall v | v in s'.versions
      ensures VersionFits(s', v)
    {
      if v != version {
        assert VersionFits(s, v);
      }
    }
    forall d | d in s'.documents
      ensures DocumentFits(s', d)
    {
      assert DocumentFits(s, d);
    }
  }

  lemma ProgressKeepsPlaces(s: Store, document: nat, status: DocumentStatus, sourceStatus: SourceStatus)
    requires document in s.documents && s.documents[document].source in s.sources
    ensures SamePlaces(s, ShowProgress(s, document, status, sourceStatus))
    ensures ShowProgress(s, document, status, sourceStatus).versions == s.versions
  {
  }

  // A version that is not current is given another status.
  lemma StatusKeepsGood(s: Store, version: nat, v': Version, status: DocumentStatus, sourceStatus: SourceStatus)
    requires Good(s) && version in s.versions && HasLineage(s, version)
    requires v'.document == s.versions[version].document && !v'.deleted && !s.versions[version].deleted
    requires s.versions[version].status != Ready && v'.status !in {Ready, VersionDeleted}
    requires v'.status == Superseded ==> v'.chunks > 0
    ensures Good(ShowProgress(SetVersion(s, version, v'), v'.document, status, sourceStatus))
  {
    var s' := ShowProgress(SetVersion(s, version, v'), v'.document, status, sourceStatus);
    ProgressKeepsPlaces(SetVersion(s, version, v'), v'.document, status, sourceStatus);
    assert VersionFits(s, version);
    OneVersionKeepsGood(s, s', version);
  }

  lemma SubmitKeepsGood(s: Store, version: nat, activeJob: bool)
    requires Good(s) && Submit(s, version, activeJob).Ok?
    ensures Good(Submit(s, version, activeJob).value)
  {
    assert VersionFits(s, version);
    StatusKeepsGood(s, version, s.versions[version].(status := IngestionPending), DocPending, SourcePending);
  }

  lemma WriteKeepsGood(s: Store, version: nat, chunks: nat)
    requires Good(s) && version in s.versions && HasLineage(s, version)
    requires s.versions[version].status !in {Ready, VersionDeleted}
    ensures Good(WriteChunks(s, version, chunks))
  {
    assert VersionFits(s, version);
    StatusKeepsGood(s, version, s.versions[version].(status := Ingesting, chunks := chunks), DocIngesting, SourceIngesting);
  }

  // Nothing having come between, a late write is an execution.
  lemma PromptWriteIsExecution(s: Store, version: nat, chunks: nat)
    requires HasLineage(s, version)
    ensures WriteLate(s, version, chunks, LoadedFrom(s, version)) == WriteChunks(s, version, chunks)
  {
    var late, prompt := WriteLate(s, version, chunks, LoadedFrom(s, version)), WriteChunks(s, version, chunks);
    assert late.sources == prompt.sources;
    assert late.documents == prompt.documents;
    assert late.versions == prompt.versions;
  }

  lemma LateWriteKeepsPlaces(s: Store, version: nat, chunks: nat, loaded: Loaded)
    requires HasLineage(s, version)
    ensures SamePlaces(s, WriteLate(s, version, chunks, loaded))
  {
  }

  lemma LateWriteKeepsGood(s: Store, version: nat, chunks: nat, loaded: Loaded)
    requires Good(s) && HasLineage(s, version) && chunks > 0
    requires loaded.version != Ingesting ==> s.versions[version].status !in {Ready, VersionDeleted}
    ensures Good(WriteLate(s, version, chunks, loaded))
  {
    assert VersionFits(s, version);
    LateWriteKeepsPlaces(s, version, chunks, loaded);
    OneVersionKeepsGood(s, WriteLate(s, version, chunks, loaded), version);
  }

  lemma CleanupKeepsGood(s: Store, version: nat, retryable: bool, terminal: bool)
    requires Good(s)
    ensures Good(Cleanup(s, version, retryable, terminal))
  {
    if version in s.versions && !s.versions[version].deleted && s.versions[version].status != Ready {
      assert VersionFits(s, version);
      var status := if retryable then IngestionPending else if terminal then Failed else Uploaded;
      StatusKeepsGood(s, version, s.versions[version].(status := status, chunks := 0),
                      if terminal then DocFailed else DocUploaded, if terminal then IngestionFailed else Registered);
    }
  }

  // What making a version current does to the versions of its document.
  lemma ActivateEffect(s: Store, version: nat)
    requires Good(s) && LiveVersion(s, version)
    ensures var s' := Activate(s, version);
            && s'.versions.Keys == s.versions.Keys
            && (forall v :: v in s.versions ==>
                 s'.versions[v] == s.versions[v].(status :=
                   if v == version then Ready
                   else if s.versions[v].status == Ready && s.versions[v].document == s.versions[version].document then Superseded
                   else s.versions[v].status))
  {
    var d := DocumentOf(s, version);
    assert DocumentFits(s, s.versions[version].document);
    forall v | v in s.versions
      ensures s.versions[v].status == Ready && s.versions[v].document == s.versions[version].document ==> d.current == Some(v)
    {
      assert VersionFits(s, v);
    }
  }

  lemma ActivateKeepsGood(s: Store, version: nat)
    requires Good(s) && LiveVersion(s, version) && s.versions[version].chunks > 0
    ensures Good(Activate(s, version))
  {
    var s' := Activate(s, version);
    ActivateEffect(s, version);
    forall v | v in s'.versions
      ensures VersionFits(s', v)
    {
      assert VersionFits(s, v);
    }
    forall d | d in s'.documents
      ensures DocumentFits(s', d)
    {
      assert DocumentFits(s, d);
    }
  }

  lemma RollBackKeepsGood(s: Store, document: nat, version: nat)
    requires Good(s) && RollBackTo(s, document, version).Ok?
    ensures Good(RollBackTo(s, document, version).value)
  {
    assert VersionFits(s, version);
    if s.documents[document].current != Some(version) {
      ActivateKeepsGood(s, version);
    }
  }

  lemma UploadKeepsGood(s: Store, document: nat, version: nat, number: nat, checksum: string)
    requires Good(s) && LiveDocument(s, document) && version !in s.versions
    ensures Good(UploadVersion(s, document, version, number, checksum))
  {
    OneVersionKeepsGood(s, UploadVersion(s, document, version, number, checksum), version);
  }

  lemma NewDocumentKeepsGood(s: Store, document: nat, source: nat)
    requires Good(s) && document !in s.documents && source in s.sources && !s.sources[source].deleted
    ensures Good(s.(documents := s.documents[document := Document(source, None, DocUploaded, false)]))
  {
    var s' := s.(documents := s.documents[document := Document(source, None, DocUploaded, false)]);
    forall v | v in s'.versions
      ensures VersionFits(s', v)
    {
      assert VersionFits(s, v);
    }
    forall d | d in s'.documents
      ensures DocumentFits(s', d)
    {
      if d != document {
        assert DocumentFits(s, d);
      }
    }
  }

  lemma RemoveKeepsVersions(s: Store, documents: set<nat>, v: nat)
    requires v in s.versions && VersionFits(s, v)
    ensures VersionFits(RemoveDocuments(s, documents), v)
  {
  }

  lemma RemoveKeepsGood(s: Store, documents: set<nat>)
    requires Good(s)
    ensures Good(RemoveDocuments(s, documents))
  {
    var s' := RemoveDocuments(s, documents);
    forall v | v in s'.versions
      ensures VersionFits(s', v)
    {
      RemoveKeepsVersions(s, documents, v);
    }
    forall d | d in s'.documents
      ensures DocumentFits(s', d)
    {
      assert DocumentFits(s, d);
    }
  }

  lemma SourceChangeKeepsGood(s: Store, source: nat, row: Source)
    requires Good(s) && (source in s.sources ==> row.deleted == s.sources[source].deleted)
    ensures Good(s.(sources := s.sources[source := row]))
  {
    var s' := s.(sources := s.sources[source := row]);
    forall v | v in s'.versions
      ensures VersionFits(s', v)
    {
      assert VersionFits(s, v);
    }
    forall d | d in s'.documents
      ensures DocumentFits(s', d)
    {
      assert DocumentFits(s, d);
    }
  }

  lemma RemoveSourceKeepsGood(s: Store, source: nat)
    requires Good(s) && source in s.sources
    ensures Good(RemoveSource(s, source))
  {
    var removed := RemoveDocuments(s, DocumentsOf(s, source));
    var s' := RemoveSource(s, source);
    RemoveKeepsGood(s, DocumentsOf(s, source));
    forall v | v in s'.versions
      ensures VersionFits(s', v)
    {
      assert VersionFits(removed, v);
    }
    forall d | d in s'.documents
      ensures DocumentFits(s', d)
    {
      assert DocumentFits(removed, d);
    }
  }

  // A late write that comes in time: it sets no status, or its version is still
  // neither the ready one nor deleted. Every other event is always in time.
  predicate InTime(s: Store, e: Event) {
    e.WrittenLate? && HasLineage(s, e.version) && e.chunks > 0 && e.loaded.version != Ingesting ==>
      s.versions[e.version].status !in {Ready, VersionDeleted}
  }

  lemma HappenKeepsGood(s: Store, e: Event)
    requires Good(s) && InTime(s, e)
    ensures Good(Happen(s, e))
  {
    match e
    case SourceAdded(source, approved) => if source !in s.sources { SourceChangeKeepsGood(s, source, Source(Registered, approved, false)); }
    case Approved(source, approved) => if source in s.sources { SourceChangeKeepsGood(s, source, s.sources[source].(approved := approved)); }
    case DocumentUploaded(source, document, version, checksum) =>
      if Happen(s, e) != s {
        NewDocumentKeepsGood(s, document, source);
        UploadKeepsGood(s.(documents := s.documents[document := Document(source, None, DocUploaded, false)]), document, version, 1, checksum);
      }
    case VersionUploaded(document, version, checksum) =>
      if Happen(s, e) != s { UploadKeepsGood(s, document, version, NextNumber(s, document), checksum); }
    case Submitted(version, activeJob) => if Submit(s, version, activeJob).Ok? { SubmitKeepsGood(s, version, activeJob); }
    case Executed(version, chunks) => if Execute(s, version, chunks).Ok? { WriteKeepsGood(s, version, chunks); }
    case WrittenLate(version, chunks, loaded) =>
      if HasLineage(s, version) && chunks > 0 { LateWriteKeepsGood(s, version, chunks, loaded); }
    case Finalized(version, checksum, chunks) => if Finalize(s, version, checksum, chunks).Ok? { ActivateKeepsGood(s, version); }
    case CleanedUp(version, retryable, terminal) => CleanupKeepsGood(s, version, retryable, terminal);
    case RolledBackTo(document, version) => if RollBackTo(s, document, version).Ok? { RollBackKeepsGood(s, document, version); }
    case DocumentRemoved(document) => RemoveKeepsGood(s, {document});
    case SourceRemoved(source) => if source in s.sources { RemoveSourceKeepsGood(s, source); }
  }

  // ---- whole histories ----

  ghost function Before(events: seq<Event>, i: nat): Store
    requires i <= |events|
  {
    After(EMPTY, events[..i])
  }

  ghost predicate AllInTime(events: seq<Event>) {
    forall i :: 0 <= i < |events| ==> InTime(Before(events, i), events[i])
  }

  // A late write had its rows loaded and its check passed at some earlier time.
  ghost predicate Possible(events: seq<Event>) {
    forall i :: 0 <= i < |events| && events[i].WrittenLate? ==>
      exists j :: 0 <= j < i && CheckedOn(Before(events, j), events[i].version, events[i].loaded)
  }

  predicate CheckedOn(s: Store, version: nat, loaded: Loaded) {
    Ingestable(s, version) && LoadedFrom(s, version) == loaded
  }

  lemma BeforeLast(events: seq<Event>)
    requires events != []
    ensures forall i :: 0 <= i < |events| ==> Before(events, i) == Before(events[..|events| - 1], i)
    ensures After(EMPTY, events) == Happen(Before(events, |events| - 1), events[|events| - 1])
  {
    forall i | 0 <= i < |events|
      ensures Before(events, i) == Before(events[..|events| - 1], i)
    {
      assert events[..i] == events[..|events| - 1][..i];
    }
  }

  lemma {:induction false} HistoriesAreGood(events: seq<Event>)
    requires AllInTime(events)
    ensures Good(After(EMPTY, events)) && Numbered(After(EMPTY, events))
  {
    if events != [] {
      var front, last := events[..|events| - 1], events[|events| - 1];
      BeforeLast(events);
      assert AllInTime(front);
      HistoriesAreGood(front);
      assert InTime(Before(events, |front|), last);
      HappenKeepsGood(After(EMPTY, front), last);
      HappenNumbersFreshly(After(EMPTY, front), last);
    }
  }

  ghost predicate GoodThroughout(events: seq<Event>) {
    forall i :: 0 <= i <= |events| ==> Good(Before(events, i))
  }

  lemma PrefixInTime(events: seq<Event>, i: nat)
    requires AllInTime(events) && i <= |events|
    ensures AllInTime(events[..i])
  {
    forall j | 0 <= j < i
      ensures InTime(Before(events[..i], j), events[..i][j])
    {
      assert events[..i][..j] == events[..j];
      assert InTime(Before(events, j), events[j]);
    }
  }

  lemma NextBefore(events: seq<Event>, i: nat)
    requires i < |events|
    ensures Before(events, i + 1) == Happen(Before(events, i), events[i])
  {
    assert events[..i + 1][..i] == events[..i];
  }

  // A history keeps the invariant at every point exactly when every late write in
  // it comes in time.
  lemma GoodThroughoutIff(events: seq<Event>)
    ensures GoodThroughout(events) <==> AllInTime(events)
  {
    if AllInTime(events) {
      forall i | 0 <= i <= |events|
        ensures Good(Before(events, i))
      {
        PrefixInTime(events, i);
        HistoriesAreGood(events[..i]);
      }
    } else {
      var i :| 0 <= i < |events| && !InTime(Before(events, i), events[i]);
      NextBefore(events, i);
      if Good(Before(events, i)) {
        LateWriteKeepsGoodIff(Before(events, i), events[i].version, events[i].chunks, events[i].loaded);
        assert !Good(Before(events, i + 1));
      }
    }
  }

  // In every history whose late writes come in time: of the versions of a live
  // document exactly the current one is ready.
  lemma ReadyIsCurrent(events: seq<Event>, document: nat, version: nat)
    requires AllInTime(events) && LiveDocument(After(EMPTY, events), document)
    ensures var s := After(EMPTY, events);
            && (s.documents[document].current == Some(version) <==>
                version in s.versions && s.versions[version].document == document && s.versions[version].status == Ready)
            && (version in s.versions && s.versions[version].status == Ready ==> s.versions[version].chunks > 0)
  {
    HistoriesAreGood(events);
    var s := After(EMPTY, events);
    assert DocumentFits(s, document);
    if version in s.versions {
      assert VersionFits(s, version);
    }
  }

  // A write after an earlier check keeps the invariant exactly when the version was
  // being ingested at the check already, or is neither the ready one nor deleted
  // by then.
  lemma LateWriteKeepsGoodIff(s: Store, version: nat, chunks: nat, loaded: Loaded)
    requires Good(s) && HasLineage(s, version) && chunks > 0
    ensures Good(WriteLate(s, version, chunks, loaded)) <==>
            loaded.version == Ingesting || s.versions[version].status !in {Ready, VersionDeleted}
  {
    var s' := WriteLate(s, version, chunks, loaded);
    assert VersionFits(s, version);
    if loaded.version == Ingesting || s.versions[version].status !in {Ready, VersionDeleted} {
      LateWriteKeepsGood(s, version, chunks, loaded);
    } else if s.versions[version].status == Ready {
      assert !DocumentFits(s', s.versions[version].document);
    } else {
      assert !VersionFits(s', version);
    }
  }

  // ---- what no late write can break ----

  // A ready version is its document's current one, so there is at most one.
  ghost predicate OneReady(s: Store) {
    && (forall v :: v in s.versions ==>
          HasLineage(s, v) && (s.versions[v].status == Ready ==> DocumentOf(s, v).current == Some(v)))
    && (forall d :: d in s.documents ==> s.documents[d].source in s.sources)
  }

  // One version changed, in its status or chunks, but was not made ready.
  lemma ChangedVersionKeepsOneReady(s: Store, s': Store, version: nat)
    requires OneReady(s) && SamePlaces(s, s')
    requires version in s'.versions && s'.versions == s.versions[version := s'.versions[version]]
    requires s'.versions[version].document in s.documents
    requires s'.versions[version].status == Ready ==>
               version in s.versions && s.versions[version].status == Ready && s'.versions[version].document == s.versions[version].document
    ensures OneReady(s')
  {
    forall v | v in s'.versions
      ensures HasLineage(s', v) && (s'.versions[v].status == Ready ==> DocumentOf(s', v).current == Some(v))
    {
      assert v != version || version in s.versions ==> HasLineage(s, v);
    }
  }

  lemma StatusKeepsOneReady(s: Store, version: nat, v': Version, status: DocumentStatus, sourceStatus: SourceStatus)
    requires OneReady(s) && HasLineage(s, version) && v'.document == s.versions[version].document && v'.status != Ready
    ensures OneReady(ShowProgress(SetVersion(s, version, v'), v'.document, status, sourceStatus))
  {
    ProgressKeepsPlaces(SetVersion(s, version, v'), v'.document, status, sourceStatus);
    ChangedVersionKeepsOneReady(s, ShowProgress(SetVersion(s, version, v'), v'.document, status, sourceStatus), version);
  }

  lemma ActivateKeepsOneReady(s: Store, version: nat)
    requires OneReady(s) && HasLineage(s, version)
    ensures OneReady(Activate(s, version))
  {
    var s' := Activate(s, version);
    forall v | v in s'.versions
      ensures HasLineage(s', v) && (s'.versions[v].status == Ready ==> DocumentOf(s', v).current == Some(v))
    {
      assert HasLineage(s, v);
    }
  }

  lemma RemovalKeepsOneReady(s: Store, documents: set<nat>)
    requires OneReady(s)
    ensures OneReady(RemoveDocuments(s, documents))
  {
    var s' := RemoveDocuments(s, documents);
    forall v | v in s'.versions
      ensures HasLineage(s', v) && (s'.versions[v].status == Ready ==> DocumentOf(s', v).current == Some(v))
    {
      assert HasLineage(s, v);
    }
  }

  lemma ArrivalKeepsOneReady(s: Store, e: Event)
    requires OneReady(s) && (e.SourceAdded? || e.Approved? || e.DocumentUploaded? || e.VersionUploaded?)
    ensures OneReady(Happen(s, e))
  {
    var s' := Happen(s, e);
    forall v | v in s'.versions
      ensures HasLineage(s', v) && (s'.versions[v].status == Ready ==> DocumentOf(s', v).current == Some(v))
    {
      if v in s.versions {
        assert HasLineage(s, v);
      }
    }
  }

  lemma HappenKeepsOneReady(s: Store, e: Event)
    requires OneReady(s)
    ensures OneReady(Happen(s, e))
  {
    match e
    case Submitted(version, activeJob) =>
      if Submit(s, version, activeJob).Ok? {
        StatusKeepsOneReady(s, version, s.versions[version].(status := IngestionPending), DocPending, SourcePending);
      }
    case Executed(version, chunks) =>
      if Execute(s, version, chunks).Ok? {
        StatusKeepsOneReady(s, version, s.versions[version].(status := Ingesting, chunks := chunks), DocIngesting, SourceIngesting);
      }
    case WrittenLate(version, chunks, loaded) =>
      if HasLineage(s, version) && chunks > 0 {
        LateWriteKeepsPlaces(s, version, chunks, loaded);
        ChangedVersionKeepsOneReady(s, WriteLate(s, version, chunks, loaded), version);
      }
    case Finalized(version, checksum, chunks) => if Finalize(s, version, checksum, chunks).Ok? { ActivateKeepsOneReady(s, version); }
    case CleanedUp(version, retryable, terminal) =>
      if Cleanup(s, version, retryable, terminal) != s {
        var status := if retryable then IngestionPending else if terminal then Failed else Uploaded;
        StatusKeepsOneReady(s, version, s.versions[version].(status := status, chunks := 0),
                            if terminal then DocFailed else DocUploaded, if terminal then IngestionFailed else Registered);
      }
    case RolledBackTo(document, version) =>
      if RollBackTo(s, document, version).Ok? && s.documents[document].current != Some(version) { ActivateKeepsOneReady(s, version); }
    case DocumentRemoved(document) => RemovalKeepsOneReady(s, {document});
    case SourceRemoved(source) =>
      if source in s.sources {
        RemovalKeepsOneReady(s.(sources := s.sources[source := s.sources[source].(status := SourceDeleted, deleted := true)]), DocumentsOf(s, source));
      }
    case _ => ArrivalKeepsOneReady(s, e);
  }

  // In every history, late writes or not, a document has at most one ready version,
  // and it is the current one: a late write can only take that status away.
  lemma {:induction false} AtMostOneReady(events: seq<Event>)
    ensures OneReady(After(EMPTY, events))
  {
    if events != [] {
      AtMostOneReady(events[..|events| - 1]);
      HappenKeepsOneReady(After(EMPTY, events[..|events| - 1]), events[|events| - 1]);
    }
  }

  // ---- a late write that does harm ----

  // Two workers run the ingestion of one version: the first checks it, the second
  // carries it through to completion, then the first writes.
  function LateHistory(): seq<Event> {
    [SourceAdded(1, true), DocumentUploaded(1, 1, 1, "c"), Submitted(1, false),
     Executed(1, 3), Finalized(1, "c", 3), WrittenLate(1, 3, Loaded(IngestionPending, DocPending, SourcePending, false))]
  }

  // The store after the first n events of that history.
  function LateStore(n: nat): Store {
    var v := Version(1, 1, Uploaded, false, "c", 0);
    if n == 0 then EMPTY
    else if n == 1 then Store(map[1 := Source(Registered, true, false)], map[], map[])
    else if n == 2 then Store(map[1 := Source(Registered, true, false)], map[1 := Document(1, None, DocUploaded, false)], map[1 := v])
    else if n == 3 then Store(map[1 := Source(SourcePending, true, false)], map[1 := Document(1, None, DocPending, false)],
                              map[1 := v.(status := IngestionPending)])
    else if n == 4 then Store(map[1 := Source(SourceIngesting, true, false)], map[1 := Document(1, None, DocIngesting, false)],
                              map[1 := v.(status := Ingesting, chunks := 3)])
    else if n == 5 then Store(map[1 := Source(Ingested, true, false)], map[1 := Document(1, Some(1), DocReady, false)],
                              map[1 := v.(status := Ready, chunks := 3)])
    else Store(map[1 := Source(SourceIngesting, true, false)], map[1 := Document(1, Some(1), DocIngesting, false)],
               map[1 := v.(status := Ingesting, chunks := 3)])
  }

  lemma EarlySteps(n: nat)
    requires n < 3
    ensures Happen(LateStore(n), LateHistory()[n]) == LateStore(n + 1)
  {
  }

  lemma LateSteps(n: nat)
    requires 3 <= n < 6
    ensures Happen(LateStore(n), LateHistory()[n]) == LateStore(n + 1)
  {
  }

  lemma {:induction false} LateRun(n: nat)
    requires n <= 6
    ensures Before(LateHistory(), n) == LateStore(n)
  {
    if n > 0 {
      LateRun(n - 1);
      if n <= 3 {
        EarlySteps(n - 1);
      } else {
        LateSteps(n - 1);
      }
      NextBefore(LateHistory(), n - 1);
    } else {
      assert LateHistory()[..0] == [];
    }
  }

  // The check passes after the third event; three events later the current version
  // of a live document is not ready.
  lemma LateWriteBreaksHere()
    ensures Possible(LateHistory())
    ensures var s := After(EMPTY, LateHistory());
            LiveDocument(s, 1) && s.documents[1].current == Some(1)
            && 1 in s.versions && s.versions[1].status == Ingesting && !Good(s)
  {
    LateRun(3);
    LateRun(6);
    assert LateHistory()[..6] == LateHistory();
    assert !DocumentFits(LateStore(6), 1);
    forall i | 0 <= i < 6 && LateHistory()[i].WrittenLate?
      ensures exists j :: 0 <= j < i && CheckedOn(Before(LateHistory(), j), LateHistory()[i].version, LateHistory()[i].loaded)
    {
      assert i == 5 && CheckedOn(Before(LateHistory(), 3), 1, LateHistory()[5].loaded);
    }
  }

  // ---- rollback there and back ----

  ghost predicate SameVersions(s: Store, s': Store) {
    && s'.versions == s.versions
    && s'.documents.Keys == s.documents.Keys
    && forall d :: d in s.documents ==> s'.documents[d].current == s.documents[d].current
  }

  // Rolling a document back to another version and back again restores the status
  // of every version and the current pointer. The rest of the store is restored
  // as well exactly when the document and its source read "ready" before.
  lemma ThereAndBack(s: Store, document: nat, here: nat, there: nat)
    requires Good(s) && LiveDocument(s, document) && s.documents[document].current == Some(here)
    requires RollBackTo(s, document, there).Ok?
    ensures var away := RollBackTo(s, document, there).value;
            var back := RollBackTo(away, document, here);
            && back.Ok? && SameVersions(s, back.value)
            && (back.value == s <==> there == here || (s.documents[document].status == DocReady && s.sources[s.documents[document].source].status == Ingested))
  {
    assert DocumentFits(s, document) && VersionFits(s, here) && VersionFits(s, there);
    if there != here {
      var away := RollBackTo(s, document, there).value;
      VersionsComeBack(s, document, here, there);
      SameStore(s, Activate(away, here), document);
    }
  }

  lemma VersionsComeBack(s: Store, document: nat, here: nat, there: nat)
    requires Good(s) && LiveDocument(s, document) && s.documents[document].current == Some(here) && there != here
    requires RollBackTo(s, document, there).Ok?
    ensures var away := RollBackTo(s, document, there).value;
            && RollBackTo(away, document, here) == Ok(Activate(away, here))
            && Activate(away, here).versions == s.versions
  {
    assert DocumentFits(s, document) && VersionFits(s, here) && VersionFits(s, there);
    var away := RollBackTo(s, document, there).value;
    RollBackKeepsGood(s, document, there);
    ActivateEffect(s, there);
    ActivateEffect(away, here);
    ReadyOnlyHere(s, document, here);
  }

  lemma ReadyOnlyHere(s: Store, document: nat, here: nat)
    requires Good(s) && LiveDocument(s, document) && s.documents[document].current == Some(here)
    ensures forall v :: v in s.versions && s.versions[v].document == document ==> (s.versions[v].status == Ready <==> v == here)
  {
    assert DocumentFits(s, document);
    forall v | v in s.versions && s.versions[v].document == document
      ensures s.versions[v].status == Ready <==> v == here
    {
      assert VersionFits(s, v);
    }
  }

  lemma SameStore(s: Store, back: Store, document: nat)
    requires document in s.documents && s.documents[document].source in s.sources
    requires back.versions == s.versions
    requires back.documents == s.documents[document := s.documents[document].(status := DocReady)]
    requires back.sources == s.sources[s.documents[document].source := s.sources[s.documents[document].source].(status := Ingested)]
    ensures back == s <==> s.documents[document].status == DocReady && s.sources[s.documents[document].source].status == Ingested
  {
  }

  // ---- the tables, changed row by row ----

  class DocumentTables {
    var sources: map<nat, Source>
    var documents: map<nat, Document>
    var versions: map<nat, Version>

    constructor ()
      ensures Contents() == EMPTY
    {
      sources, documents, versions := map[], map[], map[];
    }

    function Contents(): Store
      reads this
    {
      Store(sources, documents, versions)
    }

    method SetVersionStatus(version: nat, status: VersionStatus)
      requires version in versions
      modifies this`versions
      ensures versions == old(versions)[version := old(versions)[version].(status := status)]
    {
      versions := versions[version := versions[version].(status := status)];
    }

    // While a document has no current version, it and its source show how far
    // the ingestion has come.
    method Show(document: nat, status: DocumentStatus, sourceStatus: SourceStatus)
      requires document in documents && documents[document].source in sources
      modifies this`documents, this`sources
      ensures Contents() == ShowProgress(old(Contents()), document, status, sourceStatus)
    {
      var source := documents[document].source;
      if documents[document].current.None? {
        documents := documents[document := documents[document].(status := status)];
        sources := sources[source := sources[source].(status := sourceStatus)];
      }
    }

    // submit_document_ingestion
    method SubmitIngestion(version: nat, activeJob: bool) returns (done: Result<bool>)
      modifies this
      ensures match Submit(old(Contents()), version, activeJob)
              case Ok(s) => done == Ok(true) && Contents() == s
              case Raised(n) => done == Raised(n) && Contents() == old(Contents())
    {
      if !LiveVersion(Contents(), version) {
        return Raised(404);
      }
      if !SourceOf(Contents(), version).approved {
        return Raised(409);
      }
      var v := versions[version];
      if v.status == IngestionPending && activeJob {
        return Raised(409);
      }
      if v.status !in {Uploaded, Failed, IngestionPending} {
        return Raised(409);
      }
      SetVersionStatus(version, IngestionPending);
      Show(v.document, DocPending, SourcePending);
      done := Ok(true);
    }

    // The writes of execute.
    method StoreChunks(version: nat, chunks: nat)
      requires HasLineage(Contents(), version)
      modifies this
      ensures Contents() == WriteChunks(old(Contents()), version, chunks)
    {
      versions := versions[version := versions[version].(chunks := 0)];
      for i := 0 to chunks
        invariant versions == old(versions)[version := old(versions)[version].(chunks := i)]
        invariant documents == old(documents) && sources == old(sources)
      {
        versions := versions[version := versions[version].(chunks := versions[version].chunks + 1)];
      }
      SetVersionStatus(version, Ingesting);
      Show(versions[version].document, DocIngesting, SourceIngesting);
    }

    method ExecuteIngestion(version: nat, chunks: nat) returns (done: Result<bool>)
      modifies this
      ensures match Execute(old(Contents()), version, chunks)
              case Ok(s) => done == Ok(true) && Contents() == s
              case Raised(n) => done == Raised(n) && Contents() == old(Contents())
    {
      if !Ingestable(Contents(), version) || chunks == 0 {
        return Raised(422);
      }
      StoreChunks(version, chunks);
      done := Ok(true);
    }

    // The writes that finalize_document_ingestion and rollback_document_version
    // have in common.
    method MakeCurrent(version: nat)
      requires HasLineage(Contents(), version)
      modifies this
      ensures Contents() == Activate(old(Contents()), version)
    {
      var id := versions[version].document;
      var previous := documents[id].current;
      if previous.Some? && previous.value != version && previous.value in versions && versions[previous.value].status == Ready {
        SetVersionStatus(previous.value, Superseded);
      }
      SetVersionStatus(version, Ready);
      documents := documents[id := documents[id].(current := Some(version))];
      documents := documents[id := documents[id].(status := DocReady)];
      sources := sources[documents[id].source := sources[documents[id].source].(status := Ingested)];
    }

    method FinalizeIngestion(version: nat, checksum: string, chunks: nat) returns (done: Result<bool>)
      modifies this
      ensures match Finalize(old(Contents()), version, checksum, chunks)
              case Ok(s) => done == Ok(true) && Contents() == s
              case Raised(n) => done == Raised(n) && Contents() == old(Contents())
    {
      if !Ingestable(Contents(), version) {
        return Raised(422);
      }
      if !SourceOf(Contents(), version).approved {
        return Raised(403);
      }
      if checksum != versions[version].checksum {
        return Raised(422);
      }
      if versions[version].chunks != chunks || chunks == 0 {
        return Raised(422);
      }
      MakeCurrent(version);
      done := Ok(true);
    }

    method CleanUp(version: nat, retryable: bool, terminal: bool)
      modifies this
      ensures Contents() == Cleanup(old(Contents()), version, retryable, terminal)
    {
      if version !in versions || versions[version].deleted || versions[version].status == Ready {
        return;
      }
      versions := versions[version := versions[version].(chunks := 0)];
      if retryable {
        SetVersionStatus(version, IngestionPending);
      } else if terminal {
        SetVersionStatus(version, Failed);
      } else {
        SetVersionStatus(version, Uploaded);
      }
      if HasLineage(Contents(), version) {
        Show(versions[version].document, if terminal then DocFailed else DocUploaded, if terminal then IngestionFailed else Registered);
      }
    }

    method RollBack(document: nat, version: nat) returns (done: Result<bool>)
      modifies this
      ensures match RollBackTo(old(Contents()), document, version)
              case Ok(s) => done == Ok(true) && Contents() == s
              case Raised(n) => done == Raised(n) && Contents() == old(Contents())
    {
      if !LiveDocument(Contents(), document) {
        return Raised(404);
      }
      if version !in versions || versions[version].document != document || versions[version].deleted {
        return Raised(404);
      }
      if versions[version].status !in {Ready, Superseded} {
        return Raised(409);
      }
      if documents[document].current != Some(version) {
        MakeCurrent(version);
      }
      done := Ok(true);
    }

    // _tombstone_document
    method RemoveDocument(document: nat)
      requires document in documents
      modifies this`documents, this`versions
      ensures Contents() == RemoveDocuments(old(Contents()), {document})
    {
      documents := documents[document := documents[document].(status := DocDeleted, deleted := true)];
      var left := versions.Keys;
      while left != {}
        invariant left <= versions.Keys == old(versions).Keys
        invariant documents == old(documents)[document := old(documents)[document].(status := DocDeleted, deleted := true)]
        invariant forall v :: v in old(versions) ==>
                    versions[v] == if v !in left && old(versions)[v].document == document then Tombstone(old(versions)[v]) else old(versions)[v]
        decreases |left|
      {
        var v :| v in left;
        if versions[v].document == document {
          versions := versions[v := versions[v].(status := VersionDeleted, deleted := true)];
        }
        left := left - {v};
      }
    }

    // _tombstone_source
    method RemoveWholeSource(source: nat)
      requires source in sources
      modifies this
      ensures Contents() == RemoveSource(old(Contents()), source)
    {
      sources := sources[source := sources[source].(status := SourceDeleted, deleted := true)];
      ghost var start := Contents();
      var left := DocumentsOf(Contents(), source);
      ghost var removed := {};
      RemoveNone(start);
      while left != {}
        invariant sources == start.sources && left <= DocumentsOf(start, source) <= documents.Keys
        invariant removed == DocumentsOf(start, source) - left
        invariant Contents() == RemoveDocuments(start, removed)
        decreases |left|
      {
        var d :| d in left;
        RemoveOneMore(start, removed, d);
        RemoveDocument(d);
        left, removed := left - {d}, removed + {d};
      }
      assert removed == DocumentsOf(start, source);
    }
  }

  lemma RemoveNone(s: Store)
    ensures RemoveDocuments(s, {}) == s
  {
  }

  lemma RemoveOneMore(s: Store, documents: set<nat>, d: nat)
    ensures RemoveDocuments(RemoveDocuments(s, documents), {d}) == RemoveDocuments(s, documents + {d})
  {
  }
}
