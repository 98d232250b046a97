// The curated corpus import and its storage compensation:
// knowledge/public_corpus.py:100-133 and 635-719.

module CorpusImport {
  import opened Outcomes

  type Key = string

  // The hash of a content is taken to be injective.
  datatype Digest = DigestOf(content: string)

  datatype Media = Markdown | OctetStream | OtherMedia

  // An object as the storage reports it; the size zero stands for an omitted one.
  datatype Object = Object(content: string, reportedSize: nat, media: Media, reportedChecksum: Option<Digest>)

  // _verify_curated_object
  predicate Verified(o: Object, content: string) {
    && o.reportedSize in {0, |content|}
    && o.media in {Markdown, OctetStream}
    && (if o.reportedChecksum.Some?
        then o.reportedChecksum.value == DigestOf(content) && o.media == Markdown
        else |o.content| == |content| && o.media == Markdown && DigestOf(o.content) == DigestOf(content))
  }

  // A storage that reports a checksum reports that of the content.
  predicate Honest(o: Object) {
    o.reportedChecksum.Some? ==> o.reportedChecksum.value == DigestOf(o.content)
  }

  // The object is the document itself.
  predicate Holds(o: Object, content: string) {
    o.content == content && o.media == Markdown
  }

  datatype Upload = Upload(key: Key, content: string)

  datatype Put = PutWorks | PutFails | PutFailsAfterStoring

  // What happens around one document: the objects others create before each
  // storage call, what the storage makes of the upload, and whether a storage
  // call or a later database statement fails.
  datatype Weather = Weather(
    beforeHead: map<Key, Object>, headFails: bool,
    beforePut: map<Key, Object>, put: Put, stored: Object,
    rowsFail: bool)

  datatype Disposition = CreatedHere | AlreadyExisted | ConflictVerified

  // ---- one document ----

  // How the storage part of one document ends.
  datatype Ending = Passed(disposition: Disposition) | RefusedUntouched | RefusedCreated | StoredUnseen

  // The upload meets a free key: others, too, only create where a key is free.
  predicate MeetsFreeKey(objects: map<Key, Object>, upload: Upload, w: Weather) {
    !w.headFails && upload.key !in objects && upload.key !in w.beforeHead && upload.key !in w.beforePut
  }

  // _ensure_curated_object
  function Meet(objects: map<Key, Object>, upload: Upload, w: Weather): Ending {
    var seen := w.beforeHead + objects;
    var later := w.beforePut + seen;
    if w.headFails then RefusedUntouched
    else if upload.key in seen then
      if Verified(seen[upload.key], upload.content) then Passed(AlreadyExisted) else RefusedUntouched
    else if upload.key in later then
      if Verified(later[upload.key], upload.content) then Passed(ConflictVerified) else RefusedUntouched
    else match w.put
      case PutFails => RefusedUntouched
      case PutFailsAfterStoring => StoredUnseen
      case PutWorks => if Verified(w.stored, upload.content) then Passed(CreatedHere) else RefusedCreated
  }

  predicate Creates(e: Ending) {
    e == Passed(CreatedHere) || e == RefusedCreated
  }

  // An import stops at a document whose storage part or later rows fail.
  predicate Stops(e: Ending, w: Weather) {
    !e.Passed? || w.rowsFail
  }

  // The store, and where its objects come from: there before (in none of the
  // maps), from others, or from this import; and the keys it remembers creating.
  datatype Books = Books(objects: map<Key, Object>, others: map<Key, Object>, ours: map<Key, Object>, created: set<Key>)

  function Opening(objects: map<Key, Object>): Books {
    Books(objects, map[], map[], {})
  }

  // Other actors create objects, each under a key that is free.
  function Arrive(b: Books, arriving: map<Key, Object>): Books {
    b.(objects := arriving + b.objects, others := b.others + (arriving - b.objects.Keys))
  }

  function Store(b: Books, key: Key, o: Object): Books {
    b.(objects := b.objects[key := o], ours := b.ours[key := o])
  }

  function AfterOne(b: Books, upload: Upload, w: Weather): Books {
    var b1 := Arrive(b, w.beforeHead);
    if w.headFails || upload.key in b1.objects then
      b1
    else
      var b2 := Arrive(b1, w.beforePut);
      if upload.key in b2.objects || w.put == PutFails then b2
      else
        var b3 := Store(b2, upload.key, w.stored);
        if w.put == PutWorks then b3.(created := b3.created + {upload.key}) else b3
  }

  // ---- the whole import ----

  // The documents one after another, up to the first that stops the import.
  function AfterAll(b: Books, uploads: seq<Upload>, weather: seq<Weather>): (Books, bool)
    requires |uploads| == |weather|
    decreases |uploads|
  {
    if uploads == [] then
      (b, true)
    else
      var b' := AfterOne(b, uploads[0], weather[0]);
      if Stops(Meet(b.objects, uploads[0], weather[0]), weather[0]) then (b', false)
      else AfterAll(b', uploads[1..], weather[1..])
  }

  // _compensate_created_objects. A delete that fails is passed over.
  function Compensated(b: Books, undeletable: set<Key>): Books {
    b.(objects := b.objects - (b.created - undeletable), ours := b.ours - (b.created - undeletable))
  }

  // import_curated_public_corpus_operator
  function Imported(start: map<Key, Object>, uploads: seq<Upload>, weather: seq<Weather>, commitFails: bool, undeletable: set<Key>): (Books, bool)
    requires |uploads| == |weather|
  {
    var (b, passed) := AfterAll(Opening(start), uploads, weather);
    if passed && !commitFails then (b, true) else (Compensated(b, undeletable), false)
  }

  // ---- the same, over the inputs ----

  function NextObjects(objects: map<Key, Object>, upload: Upload, w: Weather): map<Key, Object> {
    var seen := w.beforeHead + objects;
    if w.headFails || upload.key in seen then
      seen
    else
      var later := w.beforePut + seen;
      if upload.key in later || w.put == PutFails then later else later[upload.key := w.stored]
  }

  // The keys this import creates before it stops.
  function CreatedKeys(objects: map<Key, Object>, uploads: seq<Upload>, weather: seq<Weather>): set<Key>
    requires |uploads| == |weather|
    decreases |uploads|
  {
    if uploads == [] then
      {}
    else
      var e := Meet(objects, uploads[0], weather[0]);
      (if Creates(e) then {uploads[0].key} else {}) +
      if Stops(e, weather[0]) then {} else CreatedKeys(NextObjects(objects, uploads[0], weather[0]), uploads[1..], weather[1..])
  }

  // The key of the upload that stops it after having been stored unseen, if any.
  function LostKeys(objects: map<Key, Object>, uploads: seq<Upload>, weather: seq<Weather>): set<Key>
    requires |uploads| == |weather|
    decreases |uploads|
  {
    if uploads == [] then
      {}
    else
      var e := Meet(objects, uploads[0], weather[0]);
      if e == StoredUnseen then {uploads[0].key}
      else if Stops(e, weather[0]) then {}
      else LostKeys(NextObjects(objects, uploads[0], weather[0]), uploads[1..], weather[1..])
  }

  // The store that document i finds, when every document before it passes.
  function ObjectsAt(objects: map<Key, Object>, uploads: seq<Upload>, weather: seq<Weather>, i: nat): map<Key, Object>
    requires i <= |uploads| == |weather|
    decreases i
  {
    if i == 0 then objects
    else ObjectsAt(NextObjects(objects, uploads[0], weather[0]), uploads[1..], weather[1..], i - 1)
  }

  predicate ReachesDocument(objects: map<Key, Object>, uploads: seq<Upload>, weather: seq<Weather>, i: nat)
    requires i <= |uploads| == |weather|
    decreases i
  {
    i == 0 ||
    (!Stops(Meet(objects, uploads[0], weather[0]), weather[0]) &&
     ReachesDocument(NextObjects(objects, uploads[0], weather[0]), uploads[1..], weather[1..], i - 1))
  }

  // Document i is reached and its upload meets a free key.
  predicate UploadsFreely(objects: map<Key, Object>, uploads: seq<Upload>, weather: seq<Weather>, i: nat)
    requires i < |uploads| == |weather|
  {
    ReachesDocument(objects, uploads, weather, i) && MeetsFreeKey(ObjectsAt(objects, uploads, weather, i), uploads[i], weather[i])
  }

  // A key is created exactly by a document that is reached, meets it free and
  // whose create-only request works.
  lemma {:induction false} CreatedExactly(objects: map<Key, Object>, uploads: seq<Upload>, weather: seq<Weather>, key: Key)
    requires |uploads| == |weather|
    ensures key in CreatedKeys(objects, uploads, weather) <==>
            exists i :: 0 <= i < |uploads| && uploads[i].key == key && UploadsFreely(objects, uploads, weather, i) && weather[i].put == PutWorks
    decreases |uploads|
  {
    if uploads != [] {
      var next := NextObjects(objects, uploads[0], weather[0]);
      CreatedExactly(next, uploads[1..], weather[1..], key);
      FirstOrLater(objects, uploads, weather);
    }
  }

  // A key is lost exactly by a document that is reached, meets it free and whose
  // create-only request fails after storing. That document is the last one reached.
  lemma {:induction false} LostExactly(objects: map<Key, Object>, uploads: seq<Upload>, weather: seq<Weather>, key: Key)
    requires |uploads| == |weather|
    ensures key in LostKeys(objects, uploads, weather) <==>
            exists i :: 0 <= i < |uploads| && uploads[i].key == key && UploadsFreely(objects, uploads, weather, i) && weather[i].put == PutFailsAfterStoring
    decreases |uploads|
  {
    if uploads != [] {
      var next := NextObjects(objects, uploads[0], weather[0]);
      LostExactly(next, uploads[1..], weather[1..], key);
      FirstOrLater(objects, uploads, weather);
    }
  }

  lemma FirstOrLater(objects: map<Key, Object>, uploads: seq<Upload>, weather: seq<Weather>)
    requires |uploads| == |weather| && uploads != []
    ensures UploadsFreely(objects, uploads, weather, 0) <==> MeetsFreeKey(objects, uploads[0], weather[0])
    ensures forall i {:trigger UploadsFreely(objects, uploads, weather, i)} :: 0 < i < |uploads| ==>
              (UploadsFreely(objects, uploads, weather, i) <==>
               !Stops(Meet(objects, uploads[0], weather[0]), weather[0]) &&
               UploadsFreely(NextObjects(objects, uploads[0], weather[0]), uploads[1..], weather[1..], i - 1))
  {
  }

  // ---- what goes back to whom ----

  // Every object was there before, came from others or is this import's; nobody
  // rewrites or deletes what is not theirs.
  ghost predicate Accounts(b: Books, start: map<Key, Object>) {
    && b.objects == start + b.others + b.ours
    && b.others.Keys !! start.Keys && b.ours.Keys !! start.Keys && b.ours.Keys !! b.others.Keys
    && b.created <= b.ours.Keys
  }

  lemma ArrivalKeepsAccounts(b: Books, start: map<Key, Object>, arriving: map<Key, Object>)
    requires Accounts(b, start)
    ensures Accounts(Arrive(b, arriving), start)
  {
  }

  lemma StoringKeepsAccounts(b: Books, start: map<Key, Object>, key: Key, o: Object)
    requires Accounts(b, start) && key !in b.objects
    ensures Accounts(Store(b, key, o), start) && key !in b.ours
  {
  }

  lemma OneKeepsAccounts(b: Books, start: map<Key, Object>, upload: Upload, w: Weather)
    requires Accounts(b, start)
    ensures Accounts(AfterOne(b, upload, w), start)
  {
    ArrivalKeepsAccounts(b, start, w.beforeHead);
    var b1 := Arrive(b, w.beforeHead);
    ArrivalKeepsAccounts(b1, start, w.beforePut);
    var b2 := Arrive(b1, w.beforePut);
    if upload.key !in b2.objects {
      StoringKeepsAccounts(b2, start, upload.key, w.stored);
    }
  }

  lemma OneObjects(b: Books, upload: Upload, w: Weather)
    ensures AfterOne(b, upload, w).objects == NextObjects(b.objects, upload, w)
  {
  }

  // One document adds its key to this import's objects when it stored one.
  lemma OneOurs(b: Books, upload: Upload, w: Weather)
    ensures var e := Meet(b.objects, upload, w);
            && AfterOne(b, upload, w).ours.Keys == b.ours.Keys + (if Creates(e) || e == StoredUnseen then {upload.key} else {})
            && (Creates(e) || e == StoredUnseen ==> upload.key !in b.objects)
  {
  }

  // And to the remembered keys when its request succeeded.
  lemma OneCreated(b: Books, upload: Upload, w: Weather)
    ensures AfterOne(b, upload, w).created == b.created + if Creates(Meet(b.objects, upload, w)) then {upload.key} else {}
  {
  }

  lemma {:induction false} AllAccounts(b: Books, start: map<Key, Object>, uploads: seq<Upload>, weather: seq<Weather>)
    requires |uploads| == |weather| && Accounts(b, start)
    ensures Accounts(AfterAll(b, uploads, weather).0, start)
    decreases |uploads|
  {
    if uploads != [] {
      OneKeepsAccounts(b, start, uploads[0], weather[0]);
      if !Stops(Meet(b.objects, uploads[0], weather[0]), weather[0]) {
        AllAccounts(AfterOne(b, uploads[0], weather[0]), start, uploads[1..], weather[1..]);
      }
    }
  }

  lemma {:induction false} AllCreated(b: Books, uploads: seq<Upload>, weather: seq<Weather>)
    requires |uploads| == |weather|
    ensures AfterAll(b, uploads, weather).0.created == b.created + CreatedKeys(b.objects, uploads, weather)
    decreases |uploads|
  {
    if uploads != [] {
      OneObjects(b, uploads[0], weather[0]);
      OneCreated(b, uploads[0], weather[0]);
      if !Stops(Meet(b.objects, uploads[0], weather[0]), weather[0]) {
        AllCreated(AfterOne(b, uploads[0], weather[0]), uploads[1..], weather[1..]);
      }
    }
  }

  lemma {:induction false} AllOurs(b: Books, uploads: seq<Upload>, weather: seq<Weather>)
    requires |uploads| == |weather|
    ensures AfterAll(b, uploads, weather).0.ours.Keys ==
            b.ours.Keys + (CreatedKeys(b.objects, uploads, weather) + LostKeys(b.objects, uploads, weather))
    decreases |uploads|
  {
    if uploads != [] {
      OneObjects(b, uploads[0], weather[0]);
      OneOurs(b, uploads[0], weather[0]);
      if !Stops(Meet(b.objects, uploads[0], weather[0]), weather[0]) {
        AllOurs(AfterOne(b, uploads[0], weather[0]), uploads[1..], weather[1..]);
      }
    }
  }

  // A lost key was free when it was lost, so it is none of the remembered ones.
  lemma {:induction false} LostApart(b: Books, start: map<Key, Object>, uploads: seq<Upload>, weather: seq<Weather>)
    requires |uploads| == |weather| && Accounts(b, start)
    ensures LostKeys(b.objects, uploads, weather) !! AfterAll(b, uploads, weather).0.created
    decreases |uploads|
  {
    if uploads != [] {
      OneKeepsAccounts(b, start, uploads[0], weather[0]);
      OneObjects(b, uploads[0], weather[0]);
      OneCreated(b, uploads[0], weather[0]);
      if Stops(Meet(b.objects, uploads[0], weather[0]), weather[0]) {
        OneOurs(b, uploads[0], weather[0]);
        assert forall key :: key in b.created ==> key in b.objects;
      } else {
        LostApart(AfterOne(b, uploads[0], weather[0]), start, uploads[1..], weather[1..]);
      }
    }
  }

  lemma CompensationKeepsAccounts(b: Books, start: map<Key, Object>, undeletable: set<Key>)
    requires Accounts(b, start)
    ensures var b' := Compensated(b, undeletable);
            && b'.objects == start + b'.others + b'.ours
            && b'.ours.Keys !! start.Keys && b'.ours.Keys !! b'.others.Keys
  {
    var gone := b.created - undeletable;
    assert gone !! start.Keys && gone !! b.others.Keys;
  }

  // Of a failed import exactly the created objects whose delete failed are left,
  // and the object of an upload that failed after storing.
  lemma LeftBehind(start: map<Key, Object>, uploads: seq<Upload>, weather: seq<Weather>, commitFails: bool, undeletable: set<Key>)
    requires |uploads| == |weather| && !Imported(start, uploads, weather, commitFails, undeletable).1
    ensures var b := Imported(start, uploads, weather, commitFails, undeletable).0;
            && b.objects == start + b.others + b.ours
            && b.ours.Keys !! start.Keys && b.ours.Keys !! b.others.Keys
            && b.ours.Keys == LostKeys(start, uploads, weather) + CreatedKeys(start, uploads, weather) * undeletable
  {
    var b := Opening(start);
    assert Accounts(b, start);
    AllAccounts(b, start, uploads, weather);
    AllCreated(b, uploads, weather);
    AllOurs(b, uploads, weather);
    LostApart(b, start, uploads, weather);
    CompensationKeepsAccounts(AfterAll(b, uploads, weather).0, start, undeletable);
  }

  lemma SameStoreIff(start: map<Key, Object>, others: map<Key, Object>, ours: map<Key, Object>)
    requires ours.Keys !! start.Keys && ours.Keys !! others.Keys
    ensures start + others + ours == start + others <==> ours.Keys == {}
  {
    if ours.Keys != {} {
      var key :| key in ours;
      assert key in start + others + ours && key !in start + others;
    }
  }

  // A failed import leaves the store as it was, with what others created meanwhile,
  // if and only if every key it created can be deleted and no document it reached
  // had an upload that failed after storing under a free key.
  lemma RestoredIff(start: map<Key, Object>, uploads: seq<Upload>, weather: seq<Weather>, commitFails: bool, undeletable: set<Key>)
    requires |uploads| == |weather| && !Imported(start, uploads, weather, commitFails, undeletable).1
    ensures var b := Imported(start, uploads, weather, commitFails, undeletable).0;
            b.objects == start + b.others <==>
            forall i :: 0 <= i < |uploads| && UploadsFreely(start, uploads, weather, i) ==>
              && weather[i].put != PutFailsAfterStoring
              && (weather[i].put == PutWorks ==> uploads[i].key !in undeletable)
  {
    var b := Imported(start, uploads, weather, commitFails, undeletable).0;
    LeftBehind(start, uploads, weather, commitFails, undeletable);
    SameStoreIff(start, b.others, b.ours);
    if i :| 0 <= i < |uploads| && UploadsFreely(start, uploads, weather, i)
            && (weather[i].put == PutFailsAfterStoring || (weather[i].put == PutWorks && uploads[i].key in undeletable)) {
      CreatedExactly(start, uploads, weather, uploads[i].key);
      LostExactly(start, uploads, weather, uploads[i].key);
      assert uploads[i].key in b.ours.Keys;
    } else if key :| key in b.ours.Keys {
      CreatedExactly(start, uploads, weather, key);
      LostExactly(start, uploads, weather, key);
    }
  }

  // An import succeeds exactly when every document is passed and the commit works.
  lemma {:induction false} PassesIff(objects: map<Key, Object>, b: Books, uploads: seq<Upload>, weather: seq<Weather>)
    requires |uploads| == |weather| && b.objects == objects
    ensures AfterAll(b, uploads, weather).1 <==> ReachesDocument(objects, uploads, weather, |uploads|)
    decreases |uploads|
  {
    if uploads != [] {
      OneObjects(b, uploads[0], weather[0]);
      PassesIff(NextObjects(objects, uploads[0], weather[0]), AfterOne(b, uploads[0], weather[0]), uploads[1..], weather[1..]);
    }
  }

  // Nothing that is in the store is rewritten while documents are imported.
  lemma {:induction false} ObjectsStay(b: Books, uploads: seq<Upload>, weather: seq<Weather>, key: Key)
    requires |uploads| == |weather| && key in b.objects
    ensures key in AfterAll(b, uploads, weather).0.objects && AfterAll(b, uploads, weather).0.objects[key] == b.objects[key]
    decreases |uploads|
  {
    if uploads != [] && !Stops(Meet(b.objects, uploads[0], weather[0]), weather[0]) {
      ObjectsStay(AfterOne(b, uploads[0], weather[0]), uploads[1..], weather[1..], key);
    }
  }

  lemma PassedIsStored(b: Books, upload: Upload, w: Weather)
    requires Meet(b.objects, upload, w).Passed?
    ensures StoredUnder(AfterOne(b, upload, w).objects, upload)
  {
  }

  // A verified object, which is the document exactly when the storage told the
  // truth about the checksum it reported.
  predicate StoredUnder(objects: map<Key, Object>, upload: Upload) {
    && upload.key in objects && Verified(objects[upload.key], upload.content)
    && (Holds(objects[upload.key], upload.content) <==> Honest(objects[upload.key]))
  }

  // After a successful import there is a verified object under the key of every
  // document, and it is the document if and only if its reported checksum is honest.
  lemma {:induction false} ImportedAreStored(b: Books, uploads: seq<Upload>, weather: seq<Weather>)
    requires |uploads| == |weather| && AfterAll(b, uploads, weather).1
    ensures var b' := AfterAll(b, uploads, weather).0;
            forall i :: 0 <= i < |uploads| ==> StoredUnder(b'.objects, uploads[i])
    decreases |uploads|
  {
    if uploads != [] {
      var b1, b' := AfterOne(b, uploads[0], weather[0]), AfterAll(b, uploads, weather).0;
      PassedIsStored(b, uploads[0], weather[0]);
      ObjectsStay(b1, uploads[1..], weather[1..], uploads[0].key);
      ImportedAreStored(b1, uploads[1..], weather[1..]);
      forall i | 0 <= i < |uploads|
        ensures StoredUnder(b'.objects, uploads[i])
      {
        if i > 0 {
          assert uploads[i] == uploads[1..][i - 1];
        }
      }
    }
  }

  // ---- where it fails ----

  const SAMPLE := Object("text", 4, Markdown, None)

  function Calm(put: Put): Weather {
    Weather(map[], false, map[], put, SAMPLE, false)
  }

  // One document whose upload times out after the object was stored; and one whose
  // commit is lost and whose object cannot be deleted.
  lemma RestorationFailsHere()
    ensures var unseen := Imported(map[], [Upload("k", "text")], [Calm(PutFailsAfterStoring)], false, {});
            !unseen.1 && unseen.0.others == map[] && "k" in unseen.0.objects
    ensures var stuck := Imported(map[], [Upload("k", "text")], [Calm(PutWorks)], true, {"k"});
            !stuck.1 && stuck.0.others == map[] && "k" in stuck.0.objects
  {
    var uploads := [Upload("k", "text")];
    assert uploads[1..] == [];
    var unseen, stuck := AfterOne(Opening(map[]), uploads[0], Calm(PutFailsAfterStoring)), AfterOne(Opening(map[]), uploads[0], Calm(PutWorks));
    assert AfterAll(Opening(map[]), uploads, [Calm(PutFailsAfterStoring)]) == (unseen, false);
    assert AfterAll(Opening(map[]), uploads, [Calm(PutWorks)]).0 == stuck;
  }

  // ---- the storage and the import, changed in place ----

  class CuratedStorage {
    var objects: map<Key, Object>
    ghost var others: map<Key, Object>
    ghost var ours: map<Key, Object>

    constructor (objects: map<Key, Object>)
      ensures Held({}) == Opening(objects)
    {
      this.objects := objects;
      others, ours := map[], map[];
    }

    ghost function Held(created: set<Key>): Books
      reads this
    {
      Books(objects, others, ours, created)
    }

    method LetOthersCreate(arriving: map<Key, Object>)
      modifies this
      ensures forall created :: Held(created) == Arrive(old(Held(created)), arriving)
    {
      others := others + (arriving - objects.Keys);
      objects := arriving + objects;
    }

    // _ensure_curated_object. A key is remembered as created as soon as the
    // create-only request has succeeded.
    method Ensure(upload: Upload, w: Weather, created: set<Key>) returns (result: Result<Disposition>, created': set<Key>)
      modifies this
      ensures Held(created') == AfterOne(old(Held(created)), upload, w)
      ensures match Meet(old(objects), upload, w)
              case Passed(d) => result == Ok(d)
              case _ => result.Raised?
    {
      created' := created;
      LetOthersCreate(w.beforeHead);
      if w.headFails {
        return Raised(503), created';
      }
      if upload.key in objects {
        return if Verified(objects[upload.key], upload.content) then Ok(AlreadyExisted) else Raised(503), created';
      }
      LetOthersCreate(w.beforePut);
      if upload.key in objects {
        return if Verified(objects[upload.key], upload.content) then Ok(ConflictVerified) else Raised(503), created';
      }
      if w.put == PutFails {
        return Raised(503), created';
      }
      objects, ours := objects[upload.key := w.stored], ours[upload.key := w.stored];
      if w.put == PutFailsAfterStoring {
        return Raised(503), created';
      }
      created' := created' + {upload.key};
      result := if Verified(objects[upload.key], upload.content) then Ok(CreatedHere) else Raised(503);
    }

    method Compensate(created: set<Key>, undeletable: set<Key>)
      modifies this
      ensures Held(created) == Compensated(old(Held(created)), undeletable)
    {
      var left := created;
      while left != {}
        invariant left <= created
        invariant others == old(others)
        invariant objects == old(objects) - ((created - left) - undeletable)
        invariant ours == old(ours) - ((created - left) - undeletable)
        decreases |left|
      {
        var key :| key in left;
        if key !in undeletable {
          objects, ours := objects - {key}, ours - {key};
        }
        left := left - {key};
      }
    }
  }

  // The rows an import writes are committed together or not at all.
  class Import {
    const storage: CuratedStorage
    var rows: set<Key>

    constructor (storage: CuratedStorage)
      ensures this.storage == storage && rows == {}
    {
      this.storage := storage;
      rows := {};
    }

    // import_curated_public_corpus_operator
    method Run(uploads: seq<Upload>, weather: seq<Weather>, commitFails: bool, undeletable: set<Key>) returns (done: bool, created: set<Key>)
      requires |weather| == |uploads|
      requires storage.Held({}) == Opening(storage.objects)
      modifies this, storage
      ensures (storage.Held(created), done) == Imported(old(storage.objects), uploads, weather, commitFails, undeletable)
      ensures rows == if done then old(rows) + KeysOf(uploads) else old(rows)
    {
      created := {};
      var before, failed := rows, false;
      ghost var start := storage.Held({});
      var i := 0;
      while i < |uploads| && !failed
        invariant 0 <= i <= |uploads|
        invariant before == old(rows)
        invariant failed ==> AfterAll(start, uploads, weather) == (storage.Held(created), false)
        invariant !failed ==>
                    AfterAll(start, uploads, weather) == AfterAll(storage.Held(created), uploads[i..], weather[i..])
        invariant !failed ==> rows + KeysOf(uploads[i..]) == old(rows) + KeysOf(uploads)
        decreases |uploads| - i, !failed
      {
        assert uploads[i..][1..] == uploads[i + 1..] && weather[i..][1..] == weather[i + 1..];
        var result;
        result, created := storage.Ensure(uploads[i], weather[i], created);
        if result.Raised? || weather[i].rowsFail {
          failed := true;
        } else {
          rows := rows + {uploads[i].key};
          i := i + 1;
        }
      }
      if !failed && !commitFails {
        return true, created;
      }
      rows := before;
      storage.Compensate(created, undeletable);
      done := false;
    }
  }

  function KeysOf(uploads: seq<Upload>): set<Key> {
    if uploads == [] then {} else {uploads[0].key} + KeysOf(uploads[1..])
  }

  // ---- the verification ----

  // For a storage that reports no wrong checksums, an object passes exactly when it is
  // the document, and its size, where reported, is right.
  lemma HonestObjectPassesIff(o: Object, content: string)
    requires Honest(o)
    ensures Verified(o, content) <==> Holds(o, content) && (o.reportedSize == 0 || o.reportedSize == |content|)
  {
  }

  // How a document passes: the import created its object under a free key, found one
  // there before, or met one that another actor had created meanwhile.
  lemma DispositionMeans(objects: map<Key, Object>, upload: Upload, w: Weather)
    requires Meet(objects, upload, w).Passed?
    ensures !w.headFails
    ensures match Meet(objects, upload, w).disposition
            case AlreadyExisted => upload.key in objects || upload.key in w.beforeHead
            case ConflictVerified => upload.key !in objects && upload.key !in w.beforeHead && upload.key in w.beforePut
            case CreatedHere => MeetsFreeKey(objects, upload, w) && w.put == PutWorks && Verified(w.stored, upload.content)
  {
  }
}
