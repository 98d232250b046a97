// What each step of a document's life leaves in its columns, what it is refused
// with, and which steps make a version current.

module DocumentOutcomes {
  import opened Outcomes
  import opened DocumentVersions

  // The version, its document and its source are all there and not deleted.
  predicate Alive(s: Store, version: nat) {
    && version in s.versions && !s.versions[version].deleted
    && s.versions[version].document in s.documents && !s.documents[s.versions[version].document].deleted
    && s.documents[s.versions[version].document].source in s.sources
    && !s.sources[s.documents[s.versions[version].document].source].deleted
  }

  // One version is written; of its document and its source only what they show,
  // and that only while the document has no current version.
  ghost predicate Progresses(s: Store, s': Store, version: nat, v: Version, shown: DocumentStatus, sourceShown: SourceStatus)
    requires HasLineage(s, version)
  {
    var id := s.versions[version].document;
    var d := s.documents[id];
    && s'.versions == s.versions[version := v]
    && (if d.current.None? then
          && s'.documents == s.documents[id := d.(status := shown)]
          && s'.sources == s.sources[d.source := s.sources[d.source].(status := sourceShown)]
        else s'.documents == s.documents && s'.sources == s.sources)
  }

  // A submission: of a live version of an approved source that is new, failed, or
  // pending without a live job.
  lemma SubmissionOutcome(s: Store, version: nat, activeJob: bool)
    ensures var result := Submit(s, version, activeJob);
            if !Alive(s, version) then result == Raised(404)
            else if !s.sources[s.documents[s.versions[version].document].source].approved then result == Raised(409)
            else if s.versions[version].status in {Uploaded, Failed} || (s.versions[version].status == IngestionPending && !activeJob) then
              result.Ok? && Progresses(s, result.value, version, s.versions[version].(status := IngestionPending), DocPending, SourcePending)
            else result == Raised(409)
  {
  }

  // The ingestion writes chunks, at least one, for a version that waits for it.
  lemma ExecutionOutcome(s: Store, version: nat, chunks: nat)
    ensures var result := Execute(s, version, chunks);
            if Alive(s, version) && s.versions[version].status in {IngestionPending, Ingesting} && chunks > 0 then
              result.Ok? && Progresses(s, result.value, version, s.versions[version].(status := Ingesting, chunks := chunks), DocIngesting, SourceIngesting)
            else result == Raised(422)
  {
  }

  // The version becomes the current one, and a ready one before it is superseded.
  ghost predicate MadeCurrent(s: Store, s': Store, version: nat)
    requires HasLineage(s, version)
  {
    var id := s.versions[version].document;
    var d := s.documents[id];
    && s'.documents == s.documents[id := d.(current := Some(version), status := DocReady)]
    && s'.sources == s.sources[d.source := s.sources[d.source].(status := Ingested)]
    && s'.versions.Keys == s.versions.Keys
    && forall v :: v in s.versions ==>
         s'.versions[v] == s.versions[v].(status :=
           if v == version then Ready
           else if d.current == Some(v) && s.versions[v].status == Ready then Superseded
           else s.versions[v].status)
  }

  // A completed ingestion makes its version current exactly when the source is still
  // approved and the result names the checksum and the number of chunks stored.
  lemma CompletionOutcome(s: Store, version: nat, checksum: string, chunks: nat)
    ensures var result := Finalize(s, version, checksum, chunks);
            if !Alive(s, version) || s.versions[version].status !in {IngestionPending, Ingesting} then result == Raised(422)
            else if !s.sources[s.documents[s.versions[version].document].source].approved then result == Raised(403)
            else if s.versions[version].checksum != checksum || s.versions[version].chunks != chunks || chunks == 0 then result == Raised(422)
            else result.Ok? && MadeCurrent(s, result.value, version)
  {
  }

  // A rollback makes a ready or superseded version of the document current.
  lemma RollbackOutcome(s: Store, document: nat, version: nat)
    requires Good(s)
    ensures var result := RollBackTo(s, document, version);
            if !Alive(s, version) || s.versions[version].document != document then result == Raised(404)
            else if s.versions[version].status !in {Ready, Superseded} then result == Raised(409)
            else if s.documents[document].current == Some(version) then result == Ok(s)
            else result.Ok? && MadeCurrent(s, result.value, version)
  {
    if version in s.versions {
      assert VersionFits(s, version);
    }
  }

  // A cleanup takes the chunks away and sets the version back: to pending if it will
  // be tried again, to failed if it will not, to uploaded if it was cancelled. A
  // ready or deleted version is left alone.
  lemma CleanupOutcome(s: Store, version: nat, retryable: bool, terminal: bool)
    requires Good(s)
    ensures var s' := Cleanup(s, version, retryable, terminal);
            if version !in s.versions || s.versions[version].deleted || s.versions[version].status == Ready then s' == s
            else
              && HasLineage(s, version)
              && Progresses(s, s', version,
                            s.versions[version].(chunks := 0, status := if retryable then IngestionPending else if terminal then Failed else Uploaded),
                            if terminal then DocFailed else DocUploaded, if terminal then IngestionFailed else Registered)
  {
    if version in s.versions {
      assert VersionFits(s, version);
    }
  }

  // Removing a document, or a source with all its documents, deletes every version.
  lemma RemovalOutcome(s: Store, documents: set<nat>)
    ensures var s' := RemoveDocuments(s, documents);
            && s'.sources == s.sources && s'.documents.Keys == s.documents.Keys && s'.versions.Keys == s.versions.Keys
            && (forall d :: d in s.documents ==>
                 s'.documents[d] == if d in documents then s.documents[d].(status := DocDeleted, deleted := true) else s.documents[d])
            && (forall v :: v in s.versions ==>
                 s'.versions[v] == if s.versions[v].document in documents then s.versions[v].(status := VersionDeleted, deleted := true)
                                   else s.versions[v])
  {
  }

  lemma SourceRemovalOutcome(s: Store, source: nat)
    requires source in s.sources
    ensures var s' := RemoveSource(s, source);
            && s'.sources == s.sources[source := s.sources[source].(status := SourceDeleted, deleted := true)]
            && s'.documents.Keys == s.documents.Keys && s'.versions.Keys == s.versions.Keys
            && (forall d :: d in s.documents ==>
                 s'.documents[d] == if s.documents[d].source == source then s.documents[d].(status := DocDeleted, deleted := true) else s.documents[d])
            && (forall v :: v in s.versions && s.versions[v].document in s.documents ==>
                 s'.versions[v] == if s.documents[s.versions[v].document].source == source
                                   then s.versions[v].(status := VersionDeleted, deleted := true) else s.versions[v])
  {
  }

  // ---- who makes a version current ----

  // A completion of the version with its own checksum and chunks, from an approved
  // source; or a rollback to it, when it had been ready before.
  predicate Entitles(s: Store, e: Event, version: nat) {
    && version in s.versions && HasLineage(s, version)
    && match e
       case Finalized(v, checksum, chunks) =>
         && v == version && s.versions[v].status in {IngestionPending, Ingesting} && SourceOf(s, v).approved
         && checksum == s.versions[v].checksum && chunks == s.versions[v].chunks && chunks > 0
       case RolledBackTo(document, v) =>
         v == version && s.versions[v].document == document && s.versions[v].status in {Ready, Superseded}
       case _ => false
  }

  // Whatever happens, a version becomes current only so: none with another checksum
  // than its own or without chunks, and none of a source that is not approved,
  // but by a rollback.
  lemma CurrentOnlyBy(s: Store, e: Event, document: nat, version: nat)
    requires Good(s)
    requires document in Happen(s, e).documents && Happen(s, e).documents[document].current == Some(version)
    ensures (document in s.documents && s.documents[document].current == Some(version)) || Entitles(s, e, version)
  {
    match e
    case Finalized(v, checksum, chunks) => CompletionOutcome(s, v, checksum, chunks);
    case RolledBackTo(d, v) => RollbackOutcome(s, d, v);
    case CleanedUp(v, retryable, terminal) => CleanupOutcome(s, v, retryable, terminal);
    case Submitted(v, activeJob) => SubmissionOutcome(s, v, activeJob);
    case Executed(v, chunks) => ExecutionOutcome(s, v, chunks);
    case SourceRemoved(source) => if source in s.sources { SourceRemovalOutcome(s, source); }
    case DocumentRemoved(d) => RemovalOutcome(s, {d});
    case _ => OthersKeepCurrent(s, e, document);
  }

  lemma OthersKeepCurrent(s: Store, e: Event, document: nat)
    requires e.SourceAdded? || e.Approved? || e.DocumentUploaded? || e.VersionUploaded? || e.WrittenLate?
    requires document in Happen(s, e).documents
    ensures Happen(s, e).documents[document].current == if document in s.documents then s.documents[document].current else None
  {
  }

  // In every history whose late writes come in time, each current version was made
  // so by an event that was entitled to at that time.
  lemma {:induction false} CurrentWasEntitled(events: seq<Event>, document: nat, version: nat)
    requires AllInTime(events)
    requires document in After(EMPTY, events).documents && After(EMPTY, events).documents[document].current == Some(version)
    ensures exists j :: 0 <= j < |events| && Entitles(Before(events, j), events[j], version)
  {
    var n := |events| - 1;
    var front := events[..n];
    BeforeLast(events);
    PrefixInTime(events, n);
    HistoriesAreGood(front);
    var s := After(EMPTY, front);
    CurrentOnlyBy(s, events[n], document, version);
    if document in s.documents && s.documents[document].current == Some(version) {
      CurrentWasEntitled(front, document, version);
      var j :| 0 <= j < |front| && Entitles(Before(front, j), front[j], version);
      assert front[j] == events[j];
    } else {
      assert Entitles(Before(events, n), events[n], version);
    }
  }

  // A new version is numbered one past the others of its document and waits to be
  // submitted.
  lemma UploadOutcome(s: Store, document: nat, version: nat, checksum: string)
    requires LiveDocument(s, document) && version !in s.versions
    ensures var s' := Happen(s, VersionUploaded(document, version, checksum));
            && s'.sources == s.sources && s'.documents == s.documents[document := s.documents[document].(status := DocUploaded)]
            && version in s'.versions && s'.versions == s.versions[version := s'.versions[version]]
            && var v := s'.versions[version];
               && v == Version(document, v.number, Uploaded, false, checksum, 0)
               && (forall w :: w in s.versions && s.versions[w].document == document ==> s.versions[w].number < v.number)
  {
  }
}
