// Sanitizing audit metadata a second time: exactly when it changes nothing.

module AuditIdempotence {
  import opened AuditSanitizer

  // The items of a dictionary that reach its sanitized form: the first twenty,
  // and of those whose shortened keys collide, the last.
  function Survivors(entries: seq<(string, Value)>): seq<(string, Value)> {
    Build(Shortened(Prefix(entries, MAX_KEYS)))
  }

  function Shortened(entries: seq<(string, Value)>): (r: seq<(string, Value)>)
    ensures |r| == |entries| && forall i :: 0 <= i < |r| ==> r[i] == (ShortKey(entries[i].0), entries[i].1)
  {
    seq(|entries|, i requires 0 <= i < |entries| => (ShortKey(entries[i].0), entries[i].1))
  }

  // What a caller can check: no dictionary on the deepest level that is kept is
  // cut off while shortened keys collide or one of them is the truncation mark.
  predicate Stable(v: Value, depth: nat)
    decreases MAX_DEPTH - depth
  {
    if depth >= MAX_DEPTH then
      true
    else
      match v
      case Dict(entries) =>
        var live, cut := Survivors(entries), |entries| > MAX_KEYS;
        && (cut && depth == MAX_DEPTH - 1 ==> |live| == MAX_KEYS && !HasKey(live, MARK))
        && forall i :: 0 <= i < |live| && !(cut && live[i].0 == MARK) ==> Stable(live[i].1, depth + 1)
      case List(items) =>
        forall i :: 0 <= i < |Prefix(items, MAX_ITEMS)| ==> Stable(Prefix(items, MAX_ITEMS)[i], depth + 1)
      case _ => true
  }

  // The second round.
  function Again(v: Value, depth: nat): Value {
    Sanitize(Redact(v), depth)
  }

  // ---- sanitizing and assigning commute ----

  // Same keys, and the values of b sanitized in a.
  ghost predicate Matches(a: seq<(string, Value)>, b: seq<(string, Value)>, depth: nat) {
    && |a| == |b|
    && forall i :: 0 <= i < |a| ==> a[i].0 == b[i].0 && a[i].1 == Sanitize(b[i].1, depth)
  }

  lemma {:induction false} PutMatches(a: seq<(string, Value)>, b: seq<(string, Value)>, depth: nat, key: string, value: Value)
    requires Matches(a, b, depth)
    ensures Matches(Put(a, key, Sanitize(value, depth)), Put(b, key, value), depth)
  {
    if a != [] && a[0].0 != key {
      PutMatches(a[1..], b[1..], depth, key, value);
      MatchesFront(a[0], Put(a[1..], key, Sanitize(value, depth)), b[0], Put(b[1..], key, value), depth);
    } else if a != [] {
      MatchesFront((key, Sanitize(value, depth)), a[1..], (key, value), b[1..], depth);
    }
  }

  lemma MatchesFront(x: (string, Value), a: seq<(string, Value)>, y: (string, Value), b: seq<(string, Value)>, depth: nat)
    requires Matches(a, b, depth) && x == (y.0, Sanitize(y.1, depth))
    ensures Matches([x] + a, [y] + b, depth)
  {
  }

  lemma {:induction false} BuildMatches(a: seq<(string, Value)>, b: seq<(string, Value)>, depth: nat)
    requires Matches(a, b, depth)
    ensures Matches(Build(a), Build(b), depth)
  {
    if a != [] {
      BuildMatches(a[..|a| - 1], b[..|b| - 1], depth);
      PutMatches(Build(a[..|a| - 1]), Build(b[..|b| - 1]), depth, b[|b| - 1].0, b[|b| - 1].1);
    }
  }

  lemma KeptMatchesSurvivors(entries: seq<(string, Value)>, depth: nat)
    requires depth < MAX_DEPTH
    ensures Matches(Build(SanitizePairs(Prefix(entries, MAX_KEYS), depth)), Survivors(entries), depth + 1)
  {
    BuildMatches(SanitizePairs(Prefix(entries, MAX_KEYS), depth), Shortened(Prefix(entries, MAX_KEYS)), depth + 1);
  }

  // ---- what is known of a survivor ----

  // The value under a sensitive key has been blanked by redaction.
  ghost predicate Survived(entry: (string, Value)) {
    Redacted(entry.1) && |entry.0| <= MAX_KEY && (SensitiveKey(entry.0) ==> entry.1 == Text(REDACTED))
  }

  lemma SurvivorsSurvived(entries: seq<(string, Value)>)
    requires forall i :: 0 <= i < |entries| ==> RedactedEntry(entries[i])
    ensures forall i :: 0 <= i < |Survivors(entries)| ==> Survived(Survivors(entries)[i])
    ensures DistinctKeys(Survivors(entries)) && |Survivors(entries)| <= MAX_KEYS
  {
    var hs := Prefix(entries, MAX_KEYS);
    var pairs := Shortened(hs);
    forall j | 0 <= j < |pairs|
      ensures Survived(pairs[j])
    {
      assert hs[j] == entries[j] && RedactedEntry(entries[j]);
      if SensitiveKey(ShortKey(hs[j].0)) {
        ShortKeyIsNoMoreSensitive(hs[j].0);
      }
    }
    BuildShape(pairs);
    forall i | 0 <= i < |Survivors(entries)|
      ensures Survived(Survivors(entries)[i])
    {
      assert Survivors(entries)[i] in pairs;
    }
  }

  // ---- the second round, entry by entry ----

  function AgainEntry(entry: (string, Value), depth: nat): (string, Value) {
    (ShortKey(entry.0), Sanitize(RedactEntry(entry).1, depth))
  }

  ghost predicate SettlesIff(v: Value, depth: nat) {
    Again(Sanitize(v, depth), depth) == Sanitize(v, depth) <==> Stable(v, depth)
  }

  lemma EntryAgain(t: (string, Value), c: (string, Value), depth: nat)
    requires t == (c.0, Sanitize(c.1, depth)) && Survived(c) && SettlesIff(c.1, depth)
    ensures AgainEntry(t, depth) == t <==> Stable(c.1, depth)
  {
  }

  lemma MarkAgain(depth: nat)
    ensures AgainEntry((MARK, Bool(true)), depth) == (MARK, Bool(true)) <==> depth < MAX_DEPTH
  {
    MarkIsNotSensitive();
  }

  function AgainAll(t: seq<(string, Value)>, depth: nat): (r: seq<(string, Value)>)
    ensures |r| == |t| && forall i :: 0 <= i < |r| ==> r[i] == AgainEntry(t[i], depth)
  {
    seq(|t|, i requires 0 <= i < |t| => AgainEntry(t[i], depth))
  }

  ghost predicate AllShort(t: seq<(string, Value)>) {
    forall i :: 0 <= i < |t| ==> |t[i].0| <= MAX_KEY
  }

  // The pairs the second round assigns are those of each entry on its own.
  lemma SecondPairs(t: seq<(string, Value)>, depth: nat)
    requires depth < MAX_DEPTH
    ensures SanitizePairs(Redact(Dict(t)).entries, depth) == AgainAll(t, depth + 1)
  {
  }

  // A dictionary of at most twenty entries is rebuilt entry by entry.
  lemma SmallDictAgain(t: seq<(string, Value)>, depth: nat)
    requires depth < MAX_DEPTH && DistinctKeys(t) && AllShort(t) && |t| <= MAX_KEYS
    ensures Again(Dict(t), depth) == Dict(AgainAll(t, depth + 1))
  {
    SecondPairs(t, depth);
    BuildOfDistinct(AgainAll(t, depth + 1));
  }

  // One of twenty-one, the last of which is the mark, loses the mark and gets it
  // back.
  lemma CutDictAgain(t: seq<(string, Value)>, depth: nat)
    requires depth < MAX_DEPTH && DistinctKeys(t) && AllShort(t) && |t| == MAX_KEYS && !HasKey(t, MARK)
    ensures Again(Dict(t + [(MARK, Bool(true))]), depth) == Dict(AgainAll(t, depth + 1) + [(MARK, Bool(true))])
  {
    var full := t + [(MARK, Bool(true))];
    var redacted := Redact(Dict(full)).entries;
    assert Prefix(redacted, MAX_KEYS) == Redact(Dict(t)).entries;
    SecondPairs(t, depth);
    var pairs := AgainAll(t, depth + 1);
    BuildOfDistinct(pairs);
    assert !HasKey(pairs, MARK);
    PutShape(pairs, MARK, Bool(true));
  }

  ghost predicate Stays(entry: (string, Value), depth: nat) {
    AgainEntry(entry, depth) == entry
  }

  lemma AllStay(t: seq<(string, Value)>, depth: nat)
    ensures AgainAll(t, depth) == t <==> forall i :: 0 <= i < |t| ==> Stays(t[i], depth)
  {
  }

  lemma SurvivorStays(t: seq<(string, Value)>, live: seq<(string, Value)>, depth: nat, i: nat)
    requires Matches(t, live, depth) && i < |live|
    requires Survived(live[i]) && SettlesIff(live[i].1, depth)
    ensures Stays(t[i], depth) <==> Stable(live[i].1, depth)
  {
    EntryAgain(t[i], live[i], depth);
  }

  lemma SurvivorsStay(t: seq<(string, Value)>, live: seq<(string, Value)>, depth: nat)
    requires Matches(t, live, depth)
    requires forall i :: 0 <= i < |live| ==> Survived(live[i]) && SettlesIff(live[i].1, depth)
    ensures AgainAll(t, depth) == t <==> forall i :: 0 <= i < |live| ==> Stable(live[i].1, depth)
  {
    AllStay(t, depth);
    forall i | 0 <= i < |live|
      ensures Stays(t[i], depth) <==> Stable(live[i].1, depth)
    {
      SurvivorStays(t, live, depth, i);
    }
  }

  // A dictionary that was not cut.
  lemma WholeDictSettles(entries: seq<(string, Value)>, depth: nat)
    requires depth < MAX_DEPTH && |entries| <= MAX_KEYS
    requires forall i :: 0 <= i < |entries| ==> RedactedEntry(entries[i])
    requires forall i :: 0 <= i < |Survivors(entries)| ==> SettlesIff(Survivors(entries)[i].1, depth + 1)
    ensures SettlesIff(Dict(entries), depth)
  {
    var t := Build(SanitizePairs(Prefix(entries, MAX_KEYS), depth));
    KeptMatchesSurvivors(entries, depth);
    SurvivorsSurvived(entries);
    SmallDictAgain(t, depth);
    SurvivorsStay(t, Survivors(entries), depth + 1);
  }

  lemma SameBeside<T>(a: seq<T>, b: seq<T>, last: T)
    requires |a| == |b|
    ensures a + [last] == b + [last] <==> a == b
  {
    assert (a + [last])[..|a|] == a;
    assert (b + [last])[..|b|] == b;
  }

  // A dictionary that was cut, with twenty entries left beside the mark.
  lemma CutDictSettles(entries: seq<(string, Value)>, depth: nat)
    requires depth < MAX_DEPTH && |entries| > MAX_KEYS
    requires forall i :: 0 <= i < |entries| ==> RedactedEntry(entries[i])
    requires forall i :: 0 <= i < |Survivors(entries)| ==> SettlesIff(Survivors(entries)[i].1, depth + 1)
    requires |Survivors(entries)| == MAX_KEYS && !HasKey(Survivors(entries), MARK)
    ensures SettlesIff(Dict(entries), depth)
  {
    var kept := Build(SanitizePairs(Prefix(entries, MAX_KEYS), depth));
    KeptMatchesSurvivors(entries, depth);
    SurvivorsSurvived(entries);
    CutKeeps(kept, Survivors(entries), depth + 1);
    assert Sanitize(Dict(entries), depth) == Dict(kept + [(MARK, Bool(true))]);
    CutDictStays(kept, depth);
    SurvivorsStay(kept, Survivors(entries), depth + 1);
  }

  lemma CutKeeps(kept: seq<(string, Value)>, live: seq<(string, Value)>, depth: nat)
    requires Matches(kept, live, depth) && DistinctKeys(live) && !HasKey(live, MARK)
    requires forall i :: 0 <= i < |live| ==> Survived(live[i])
    ensures DistinctKeys(kept) && AllShort(kept) && !HasKey(kept, MARK)
    ensures Put(kept, MARK, Bool(true)) == kept + [(MARK, Bool(true))]
  {
    PutShape(kept, MARK, Bool(true));
  }

  lemma CutDictStays(t: seq<(string, Value)>, depth: nat)
    requires depth < MAX_DEPTH && DistinctKeys(t) && AllShort(t) && |t| == MAX_KEYS && !HasKey(t, MARK)
    ensures var full := Dict(t + [(MARK, Bool(true))]);
            Again(full, depth) == full <==> AgainAll(t, depth + 1) == t
  {
    CutDictAgain(t, depth);
    SameBeside(AgainAll(t, depth + 1), t, (MARK, Bool(true)));
  }

  // What is left of a dictionary that was cut down to twenty entries or fewer:
  // every survivor but one under the mark's key, and the mark.
  ghost predicate Shrunk(t: seq<(string, Value)>, live: seq<(string, Value)>, depth: nat) {
    && |t| <= MAX_KEYS && |live| <= |t| && DistinctKeys(t) && AllShort(t)
    && (forall i :: 0 <= i < |t| ==>
         if i < |live| && live[i].0 != MARK then t[i] == (live[i].0, Sanitize(live[i].1, depth + 1))
         else t[i] == (MARK, Bool(true)))
    && exists m :: 0 <= m < |t| && t[m] == (MARK, Bool(true))
  }

  lemma CutIsShrunk(kept: seq<(string, Value)>, live: seq<(string, Value)>, depth: nat)
    requires Matches(kept, live, depth + 1) && DistinctKeys(live) && |live| <= MAX_KEYS
    requires forall i :: 0 <= i < |live| ==> |live[i].0| <= MAX_KEY
    requires |live| < MAX_KEYS || HasKey(live, MARK)
    ensures Shrunk(Put(kept, MARK, Bool(true)), live, depth)
  {
    assert HasKey(live, MARK) ==> HasKey(kept, MARK);
    PutShape(kept, MARK, Bool(true));
    PutValue(kept, MARK, Bool(true));
    MarkStands(kept);
  }

  // The second round treats the mark like any entry.
  lemma ShrunkStays(t: seq<(string, Value)>, live: seq<(string, Value)>, depth: nat, i: nat)
    requires Shrunk(t, live, depth) && i < |t|
    requires forall j :: 0 <= j < |live| ==> Survived(live[j]) && SettlesIff(live[j].1, depth + 1)
    ensures Stays(t[i], depth + 1) <==>
            if i < |live| && live[i].0 != MARK then Stable(live[i].1, depth + 1) else depth + 1 < MAX_DEPTH
  {
    if i < |live| && live[i].0 != MARK {
      EntryAgain(t[i], live[i], depth + 1);
    } else {
      MarkAgain(depth + 1);
    }
  }

  lemma ShrunkSettles(t: seq<(string, Value)>, live: seq<(string, Value)>, depth: nat)
    requires depth < MAX_DEPTH && Shrunk(t, live, depth)
    requires forall i :: 0 <= i < |live| ==> Survived(live[i]) && SettlesIff(live[i].1, depth + 1)
    ensures Again(Dict(t), depth) == Dict(t) <==>
            depth + 1 < MAX_DEPTH && forall i :: 0 <= i < |live| && live[i].0 != MARK ==> Stable(live[i].1, depth + 1)
  {
    SmallDictAgain(t, depth);
    AllStay(t, depth + 1);
    forall i | 0 <= i < |t|
      ensures Stays(t[i], depth + 1) <==>
              if i < |live| && live[i].0 != MARK then Stable(live[i].1, depth + 1) else depth + 1 < MAX_DEPTH
    {
      ShrunkStays(t, live, depth, i);
    }
    ShrunkVerdict(t, live, depth);
  }

  lemma ShrunkVerdict(t: seq<(string, Value)>, live: seq<(string, Value)>, depth: nat)
    requires Shrunk(t, live, depth)
    requires forall i :: 0 <= i < |t| ==>
               (Stays(t[i], depth + 1) <==>
                if i < |live| && live[i].0 != MARK then Stable(live[i].1, depth + 1) else depth + 1 < MAX_DEPTH)
    ensures (forall i :: 0 <= i < |t| ==> Stays(t[i], depth + 1)) <==>
            depth + 1 < MAX_DEPTH && forall i :: 0 <= i < |live| && live[i].0 != MARK ==> Stable(live[i].1, depth + 1)
  {
    var m :| 0 <= m < |t| && t[m] == (MARK, Bool(true));
    assert m < |live| ==> live[m].0 == MARK;
  }

  // A dictionary that was cut, with fewer entries left.
  lemma ShrunkDictSettles(entries: seq<(string, Value)>, depth: nat)
    requires depth < MAX_DEPTH && |entries| > MAX_KEYS
    requires forall i :: 0 <= i < |entries| ==> RedactedEntry(entries[i])
    requires forall i :: 0 <= i < |Survivors(entries)| ==> SettlesIff(Survivors(entries)[i].1, depth + 1)
    requires |Survivors(entries)| < MAX_KEYS || HasKey(Survivors(entries), MARK)
    ensures SettlesIff(Dict(entries), depth)
  {
    var kept := Build(SanitizePairs(Prefix(entries, MAX_KEYS), depth));
    KeptMatchesSurvivors(entries, depth);
    SurvivorsSurvived(entries);
    CutIsShrunk(kept, Survivors(entries), depth);
    ShrunkSettles(Put(kept, MARK, Bool(true)), Survivors(entries), depth);
    assert Sanitize(Dict(entries), depth) == Dict(Put(kept, MARK, Bool(true)));
  }

  lemma MarkStands(kept: seq<(string, Value)>)
    requires DistinctKeys(kept)
    ensures var t := Put(kept, MARK, Bool(true));
            exists m :: 0 <= m < |t| && t[m] == (MARK, Bool(true))
  {
    PutShape(kept, MARK, Bool(true));
    PutValue(kept, MARK, Bool(true));
    var t := Put(kept, MARK, Bool(true));
    if m :| 0 <= m < |kept| && kept[m].0 == MARK {
      assert t[m].0 == MARK;
    } else {
      assert t[|kept|] == (MARK, Bool(true));
    }
  }

  lemma ListSettles(items: seq<Value>, depth: nat)
    requires depth < MAX_DEPTH
    requires forall i :: 0 <= i < |Prefix(items, MAX_ITEMS)| ==> SettlesIff(Prefix(items, MAX_ITEMS)[i], depth + 1)
    ensures SettlesIff(List(items), depth)
  {
    var hs := Prefix(items, MAX_ITEMS);
    var kept := SanitizeItems(hs, depth);
    var full := if |items| > MAX_ITEMS then kept + [Text(TRUNCATED)] else kept;
    var redacted := Redact(List(full)).items;
    var again := SanitizeItems(Prefix(redacted, MAX_ITEMS), depth);
    assert |again| == |kept| && forall i :: 0 <= i < |kept| ==> again[i] == Again(kept[i], depth + 1);
    assert full[..|kept|] == kept;
    var result := if |items| > MAX_ITEMS then again + [Text(TRUNCATED)] else again;
    assert Again(List(full), depth) == List(result);
    assert result[..|kept|] == again;
    assert again == kept <==> forall i :: 0 <= i < |kept| ==> Again(kept[i], depth + 1) == kept[i];
  }

  lemma LeafSettles(v: Value, depth: nat)
    requires Redacted(v) && (depth >= MAX_DEPTH || (!v.Dict? && !v.List?))
    ensures SettlesIff(v, depth)
  {
    PlainText(TRUNCATED);
    PlainText(UNSUPPORTED);
    if v.Text? {
      CleanText(v.text);
    }
  }

  lemma {:induction false} SettlesExactly(v: Value, depth: nat)
    requires Redacted(v)
    ensures SettlesIff(v, depth)
    decreases MAX_DEPTH - depth
  {
    if depth < MAX_DEPTH && v.Dict? {
      SurvivorsSurvived(v.entries);
      var live := Survivors(v.entries);
      forall i | 0 <= i < |live|
        ensures SettlesIff(live[i].1, depth + 1)
      {
        assert Survived(live[i]);
        SettlesExactly(live[i].1, depth + 1);
      }
      if |v.entries| <= MAX_KEYS {
        WholeDictSettles(v.entries, depth);
      } else if |live| == MAX_KEYS && !HasKey(live, MARK) {
        CutDictSettles(v.entries, depth);
      } else {
        ShrunkDictSettles(v.entries, depth);
      }
    } else if depth < MAX_DEPTH && v.List? {
      var hs := Prefix(v.items, MAX_ITEMS);
      forall i | 0 <= i < |hs|
        ensures SettlesIff(hs[i], depth + 1)
      {
        assert Redacted(v.items[i]);
        SettlesExactly(hs[i], depth + 1);
      }
      ListSettles(v.items, depth);
    } else {
      LeafSettles(v, depth);
    }
  }

  // Sanitizing is idempotent exactly on the metadata where no dictionary on the
  // fourth level is both cut off and left with colliding keys or the mark.
  lemma IdempotentExactly(v: Value)
    ensures SanitizeMetadata(SanitizeMetadata(v)) == SanitizeMetadata(v) <==> Stable(Redact(v), 0)
  {
    RedactRedacts(v);
    SettlesExactly(Redact(v), 0);
  }

  // Twenty-one entries, one of them under the mark's own key.
  function Crowded(): Value {
    Dict(seq(21, i requires 0 <= i < 21 => (if i == 0 then MARK else [('a' as int + i) as char], Null)))
  }

  lemma CrowdedIsUnstable()
    ensures !Stable(Crowded(), MAX_DEPTH - 1)
  {
    var entries := Crowded().entries;
    var pairs := Shortened(Prefix(entries, MAX_KEYS));
    assert pairs[0].0 == MARK;
    KeysStay(pairs, 0);
    assert HasKey(Survivors(entries), MARK);
  }

  lemma {:induction false} KeysStay(pairs: seq<(string, Value)>, i: nat)
    requires i < |pairs|
    ensures HasKey(Build(pairs), pairs[i].0)
  {
    var front, last := pairs[..|pairs| - 1], pairs[|pairs| - 1];
    PutShape(Build(front), last.0, last.1);
    PutHolds(Build(front), last.0, last.1);
    if i < |front| {
      KeysStay(front, i);
      var j :| 0 <= j < |Build(front)| && Build(front)[j].0 == pairs[i].0;
      assert Build(pairs)[j].0 == pairs[i].0;
    }
  }

  lemma {:induction false} PutHolds(entries: seq<(string, Value)>, key: string, value: Value)
    ensures HasKey(Put(entries, key, value), key)
  {
    if entries == [] || entries[0].0 == key {
      assert Put(entries, key, value)[0].0 == key;
    } else {
      PutHolds(entries[1..], key, value);
      var j :| 0 <= j < |Put(entries[1..], key, value)| && Put(entries[1..], key, value)[j].0 == key;
      assert Put(entries, key, value)[j + 1].0 == key;
    }
  }

  // Three dictionaries around it, and a second sanitizing changes the metadata.
  function Nested(v: Value): Value {
    Dict([("a", v)])
  }

  lemma NestedIsUnstable(v: Value, depth: nat)
    requires depth + 1 < MAX_DEPTH && !Stable(v, depth + 1)
    ensures !Stable(Nested(v), depth)
  {
    var pairs := Shortened(Prefix([("a", v)], MAX_KEYS));
    BuildOfDistinct(pairs);
    assert Survivors([("a", v)])[0] == ("a", v);
  }

  lemma CrowdedIsRedacted()
    ensures Redact(Crowded()) == Crowded()
  {
    var entries := Crowded().entries;
    MarkIsNotSensitive();
    forall i | 0 <= i < |entries|
      ensures RedactEntry(entries[i]) == entries[i]
    {
      if i > 0 {
        ShortIsNotSensitive(entries[i].0);
      }
    }
    assert Redact(Crowded()).entries == entries;
  }

  lemma NestedIsRedacted(v: Value)
    requires Redact(v) == v
    ensures Redact(Nested(v)) == Nested(v)
  {
    ShortIsNotSensitive("a");
    assert Redact(Nested(v)).entries == [("a", v)];
  }

  lemma NotIdempotentHere()
    ensures var v := Nested(Nested(Nested(Crowded())));
            SanitizeMetadata(SanitizeMetadata(v)) != SanitizeMetadata(v)
  {
    CrowdedIsRedacted();
    NestedIsRedacted(Crowded());
    NestedIsRedacted(Nested(Crowded()));
    NestedIsRedacted(Nested(Nested(Crowded())));
    CrowdedIsUnstable();
    NestedIsUnstable(Crowded(), 2);
    NestedIsUnstable(Nested(Crowded()), 1);
    NestedIsUnstable(Nested(Nested(Crowded())), 0);
    IdempotentExactly(Nested(Nested(Nested(Crowded()))));
  }
}
