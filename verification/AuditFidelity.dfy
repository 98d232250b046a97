// What of audit metadata survives its sanitizing: everything within the bounds, and
// exactly which metadata comes back unchanged.

module AuditFidelity {
  import opened AuditSanitizer
  import opened AuditIdempotence

  function LesserOf(a: nat, b: nat): nat {
    if a <= b then a else b
  }

  // The value w stands for v on a level. Below the fourth level nothing is kept;
  // under a sensitive key and in place of a secret text stands the blank; scalars
  // are kept, of a text the first 256 characters, of a list and a dictionary the
  // first 20 entries, with a mark where there were more.
  ghost predicate StandsFor(v: Value, w: Value, level: nat, hidden: bool)
    decreases v, 3
  {
    if level >= 4 then
      w == Text("[TRUNCATED]")
    else if hidden then
      w == Text("[REDACTED]")
    else
      match v
      case Text(s) => w == Text(if SecretLike(s) then "[REDACTED]" else s[..LesserOf(|s|, 256)])
      case Unsupported => w == Text("[UNSUPPORTED]")
      case List(items) =>
        && w.List? && |w.items| == LesserOf(|items|, 21)
        && (forall i :: 0 <= i < LesserOf(|items|, 20) ==> StandsFor(items[i], w.items[i], level + 1, false))
        && (|items| > 20 ==> w.items[20] == Text("[TRUNCATED]"))
      case Dict(entries) =>
        w.Dict? && EntriesStandFor(v, w.entries, level)
      case _ => w == v
  }

  // Each of the first 20 keys is there, cut to 64 characters, with what stands for
  // its value; of keys that are cut to the same, the last counts. Nothing else is
  // there but the mark.
  ghost predicate EntriesStandFor(v: Value, kept: seq<(string, Value)>, level: nat)
    requires v.Dict?
    decreases v, 2
  {
    var cut := |v.entries| > 20;
    && DistinctKeys(kept)
    && (forall i :: 0 <= i < LesserOf(|v.entries|, 20) ==> HasKey(kept, CutKey(v.entries[i].0)))
    && (cut ==> ("_truncated", Bool(true)) in kept)
    && (forall p :: p in kept && !(cut && p == ("_truncated", Bool(true))) ==> ComesFrom(v, p, level))
  }

  ghost predicate ComesFrom(v: Value, p: (string, Value), level: nat)
    requires v.Dict?
    decreases v, 1
  {
    exists i :: 0 <= i < LesserOf(|v.entries|, 20) && EntryStandsFor(v, i, p, level)
  }

  ghost predicate EntryStandsFor(v: Value, i: nat, p: (string, Value), level: nat)
    requires v.Dict? && i < LesserOf(|v.entries|, 20)
    decreases v, 0
  {
    && LastOfKey(v.entries[..LesserOf(|v.entries|, 20)], i) && p.0 == CutKey(v.entries[i].0)
    && StandsFor(v.entries[i].1, p.1, level + 1, SensitiveKey(v.entries[i].0))
  }

  function CutKey(key: string): string {
    key[..LesserOf(|key|, 64)]
  }

  ghost predicate LastOfKey(entries: seq<(string, Value)>, i: nat)
    requires i < |entries|
  {
    forall j :: i < j < |entries| ==> CutKey(entries[j].0) != CutKey(entries[i].0)
  }

  // ---- assigning in order ----

  // What is in the result was assigned, and not overwritten later.
  ghost predicate Assigned(pairs: seq<(string, Value)>, i: nat, p: (string, Value)) {
    i < |pairs| && pairs[i] == p && forall j :: i < j < |pairs| ==> pairs[j].0 != p.0
  }

  lemma {:induction false} BuildTakesLast(pairs: seq<(string, Value)>, p: (string, Value)) returns (i: nat)
    requires p in Build(pairs)
    ensures Assigned(pairs, i, p)
  {
    var front, last := pairs[..|pairs| - 1], pairs[|pairs| - 1];
    BuildShape(front);
    PutMembers(Build(front), last.0, last.1);
    PutValue(Build(front), last.0, last.1);
    if p.0 == last.0 {
      i := |front|;
    } else {
      i := BuildTakesLast(front, p);
      assert pairs[i] == front[i];
    }
  }

  lemma {:induction false} FullBuildIsList(pairs: seq<(string, Value)>)
    requires |Build(pairs)| == |pairs|
    ensures Build(pairs) == pairs
  {
    if pairs != [] {
      var front, last := pairs[..|pairs| - 1], pairs[|pairs| - 1];
      BuildShape(front);
      PutShape(Build(front), last.0, last.1);
      FullBuildIsList(front);
    }
  }

  // ---- what stands for what ----

  // One entry of a dictionary after both stages.
  function AfterBoth(entry: (string, Value), depth: nat): Value {
    Sanitize(RedactEntry(entry).1, depth)
  }

  lemma PairsOf(entries: seq<(string, Value)>, depth: nat) returns (pairs: seq<(string, Value)>)
    requires depth < MAX_DEPTH
    ensures pairs == SanitizePairs(Prefix(Redact(Dict(entries)).entries, MAX_KEYS), depth)
    ensures |pairs| == LesserOf(|entries|, 20)
    ensures forall i :: 0 <= i < |pairs| ==> pairs[i] == (CutKey(entries[i].0), AfterBoth(entries[i], depth + 1))
  {
    pairs := SanitizePairs(Prefix(Redact(Dict(entries)).entries, MAX_KEYS), depth);
  }

  // The pairs to be assigned: the first 20 keys cut, with what stands for their values.
  ghost predicate PairsStandFor(v: Value, pairs: seq<(string, Value)>, level: nat)
    requires v.Dict?
  {
    && |pairs| == LesserOf(|v.entries|, 20)
    && forall i :: 0 <= i < |pairs| ==>
         && pairs[i].0 == CutKey(v.entries[i].0)
         && StandsFor(v.entries[i].1, pairs[i].1, level + 1, SensitiveKey(v.entries[i].0))
  }

  lemma MemberComesFrom(v: Value, pairs: seq<(string, Value)>, p: (string, Value), level: nat)
    requires v.Dict? && PairsStandFor(v, pairs, level) && p in Build(pairs)
    ensures ComesFrom(v, p, level)
  {
    var i := BuildTakesLast(pairs, p);
    LastSurvives(v.entries[..|pairs|], pairs, i);
    assert EntryStandsFor(v, i, p, level);
  }

  lemma KeysAreKept(pairs: seq<(string, Value)>, i: nat)
    requires i < |pairs|
    ensures HasKey(Build(pairs), pairs[i].0) && HasKey(Put(Build(pairs), MARK, Bool(true)), pairs[i].0)
  {
    KeysStay(pairs, i);
    var j :| 0 <= j < |Build(pairs)| && Build(pairs)[j].0 == pairs[i].0;
    PutShape(Build(pairs), MARK, Bool(true));
    assert Put(Build(pairs), MARK, Bool(true))[j].0 == pairs[i].0;
  }

  lemma MarkIsKept(entries: seq<(string, Value)>)
    requires DistinctKeys(entries)
    ensures (MARK, Bool(true)) in Put(entries, MARK, Bool(true)) && DistinctKeys(Put(entries, MARK, Bool(true)))
    ensures forall p :: p in Put(entries, MARK, Bool(true)) && p != (MARK, Bool(true)) ==> p in entries
  {
    PutMembers(entries, MARK, Bool(true));
    PutValue(entries, MARK, Bool(true));
    PutHolds(entries, MARK, Bool(true));
    var put := Put(entries, MARK, Bool(true));
    var j :| 0 <= j < |put| && put[j].0 == MARK;
    assert put[j] == (MARK, Bool(true));
  }

  lemma BuiltStandsFor(v: Value, pairs: seq<(string, Value)>, level: nat)
    requires v.Dict? && PairsStandFor(v, pairs, level)
    ensures EntriesStandFor(v, if |v.entries| > 20 then Put(Build(pairs), MARK, Bool(true)) else Build(pairs), level)
  {
    BuildShape(pairs);
    MarkIsKept(Build(pairs));
    forall i | 0 <= i < |pairs|
      ensures HasKey(Build(pairs), CutKey(v.entries[i].0)) && HasKey(Put(Build(pairs), MARK, Bool(true)), CutKey(v.entries[i].0))
    {
      KeysAreKept(pairs, i);
    }
    forall p | p in Build(pairs)
      ensures ComesFrom(v, p, level)
    {
      MemberComesFrom(v, pairs, p, level);
    }
  }

  lemma LastSurvives(entries: seq<(string, Value)>, pairs: seq<(string, Value)>, i: nat)
    requires |entries| == |pairs| && i < |pairs| && Assigned(pairs, i, pairs[i])
    requires forall j :: 0 <= j < |pairs| ==> pairs[j].0 == CutKey(entries[j].0)
    ensures LastOfKey(entries, i)
  {
  }

  lemma HiddenStandsFor(v: Value, level: nat)
    ensures StandsFor(v, Sanitize(Text(REDACTED), level), level, true)
  {
  }

  lemma LeafStandsFor(v: Value, level: nat)
    requires level >= MAX_DEPTH || (!v.Dict? && !v.List?)
    ensures StandsFor(v, Sanitize(Redact(v), level), level, false)
  {
  }

  lemma ValueStandsFor(entry: (string, Value), level: nat)
    requires !SensitiveKey(entry.0) ==> StandsFor(entry.1, Sanitize(Redact(entry.1), level), level, false)
    ensures StandsFor(entry.1, AfterBoth(entry, level), level, SensitiveKey(entry.0))
  {
    HiddenStandsFor(entry.1, level);
  }

  lemma ListStandsFor(items: seq<Value>, level: nat)
    requires level < MAX_DEPTH
    requires forall i :: 0 <= i < LesserOf(|items|, 20) ==> StandsFor(items[i], Sanitize(Redact(items[i]), level + 1), level + 1, false)
    ensures StandsFor(List(items), Sanitize(Redact(List(items)), level), level, false)
  {
    var redacted := Redact(List(items)).items;
    var kept := SanitizeItems(Prefix(redacted, MAX_ITEMS), level);
    forall i | 0 <= i < |kept|
      ensures StandsFor(items[i], kept[i], level + 1, false)
    {
      assert Prefix(redacted, MAX_ITEMS)[i] == Redact(items[i]);
    }
  }

  // Whatever the metadata, what is stored stands for it.
  lemma {:induction false} SanitizedStandsFor(v: Value, level: nat)
    ensures StandsFor(v, Sanitize(Redact(v), level), level, false)
    decreases v
  {
    if level >= MAX_DEPTH || (!v.Dict? && !v.List?) {
      LeafStandsFor(v, level);
    } else if v.List? {
      forall i | 0 <= i < |v.items|
        ensures StandsFor(v.items[i], Sanitize(Redact(v.items[i]), level + 1), level + 1, false)
      {
        SanitizedStandsFor(v.items[i], level + 1);
      }
      ListStandsFor(v.items, level);
    } else {
      var pairs := PairsOf(v.entries, level);
      forall i | 0 <= i < |pairs|
        ensures StandsFor(v.entries[i].1, pairs[i].1, level + 1, SensitiveKey(v.entries[i].0))
      {
        SanitizedStandsFor(v.entries[i].1, level + 1);
        ValueStandsFor(v.entries[i], level + 1);
      }
      BuiltStandsFor(v, pairs, level);
    }
  }

  lemma MetadataStandsFor(v: Value)
    ensures StandsFor(v, SanitizeMetadata(v), 0, false)
  {
    SanitizedStandsFor(v, 0);
  }

  // ---- what is a secret ----

  // The words that make a key sensitive, and a longer text secret, in any case.
  function KeyWords(): set<string> {
    {"secret", "token", "key", "password", "credential", "cookie", "authorization", "email",
     "request_body", "raw_body", "verification_code"}
  }

  function TextWords(): set<string> {
    {"sk-", "apikey", "api_key", "api-key", "token", "secret"}
  }

  ghost predicate Mentions(s: string, words: set<string>) {
    exists w :: w in words && Contains(Lower(s), w)
  }

  lemma ListedWords(s: string, patterns: seq<string>, words: set<string>)
    requires words == set w | w in patterns
    ensures Mentions(s, words) <==> exists i :: 0 <= i < |patterns| && Contains(Lower(s), patterns[i])
  {
    if w :| w in words && Contains(Lower(s), w) {
      var i :| 0 <= i < |patterns| && patterns[i] == w;
    }
    if i :| 0 <= i < |patterns| && Contains(Lower(s), patterns[i]) {
      assert patterns[i] in words;
    }
  }

  lemma SecretWords(s: string)
    ensures SensitiveKey(s) <==> Mentions(s, KeyWords())
    ensures SecretLike(s) <==> HasAddress(s) || (|s| >= 16 && Mentions(s, TextWords()))
  {
    ListedWords(s, SECRET_PATTERNS, KeyWords());
    ListedWords(s, SECRET_MARKS, TextWords());
  }

  // ---- what comes back unchanged ----

  // Fewer than four levels, at most 20 entries or 20 and the mark, keys of at most
  // 64 and texts of at most 256 characters, no secret text, nothing unsupported,
  // and blanks under sensitive keys.
  ghost predicate Presentable(v: Value, level: nat)
    decreases v
  {
    if level >= 4 then
      v == Text("[TRUNCATED]")
    else
      match v
      case Text(s) => |s| <= 256 && !SecretLike(s)
      case Unsupported => false
      case List(items) =>
        && (|items| <= 20 || (|items| == 21 && items[20] == Text("[TRUNCATED]")))
        && forall i :: 0 <= i < LesserOf(|items|, 20) ==> Presentable(items[i], level + 1)
      case Dict(entries) =>
        && DistinctKeys(entries)
        && (|entries| <= 20 || (|entries| == 21 && entries[20] == ("_truncated", Bool(true))))
        && forall i :: 0 <= i < LesserOf(|entries|, 20) ==>
             && |entries[i].0| <= 64
             && if SensitiveKey(entries[i].0) then Blank(entries[i].1, level + 1) else Presentable(entries[i].1, level + 1)
      case _ => true
  }

  predicate Blank(v: Value, level: nat) {
    v == Text(if level >= 4 then "[TRUNCATED]" else "[REDACTED]")
  }

  lemma LeafUnchangedIff(v: Value, level: nat)
    requires level >= MAX_DEPTH || (!v.Dict? && !v.List?)
    ensures Sanitize(Redact(v), level) == v <==> Presentable(v, level)
  {
    PlainText(REDACTED);
  }

  lemma MarkedIsSameIff(items: seq<Value>, kept: seq<Value>, mark: Value)
    requires |kept| == LesserOf(|items|, 20)
    ensures (if |items| > 20 then kept + [mark] else kept) == items <==>
            && (|items| <= 20 || (|items| == 21 && items[20] == mark))
            && forall i :: 0 <= i < |kept| ==> kept[i] == items[i]
  {
    if |items| == 21 {
      assert items == items[..20] + [items[20]];
      assert (forall i :: 0 <= i < |kept| ==> kept[i] == items[i]) <==> kept == items[..20];
    }
  }

  lemma ListUnchangedIff(items: seq<Value>, level: nat)
    requires level < MAX_DEPTH
    requires forall i :: 0 <= i < LesserOf(|items|, 20) ==> (Sanitize(Redact(items[i]), level + 1) == items[i] <==> Presentable(items[i], level + 1))
    ensures Sanitize(Redact(List(items)), level) == List(items) <==> Presentable(List(items), level)
  {
    var redacted := Redact(List(items)).items;
    var kept := SanitizeItems(Prefix(redacted, MAX_ITEMS), level);
    MarkedIsSameIff(items, kept, Text(TRUNCATED));
    assert forall i :: 0 <= i < |kept| ==> kept[i] == Sanitize(Redact(items[i]), level + 1);
  }

  // An entry comes back unchanged.
  ghost predicate PresentableEntry(entry: (string, Value), level: nat) {
    |entry.0| <= 64 && if SensitiveKey(entry.0) then Blank(entry.1, level) else Presentable(entry.1, level)
  }

  lemma CutIsSameIff(key: string)
    ensures CutKey(key) == key <==> |key| <= 64
  {
    assert |CutKey(key)| == LesserOf(|key|, 64);
  }

  lemma HiddenIsBlankIff(v: Value, level: nat)
    ensures Sanitize(Text(REDACTED), level) == v <==> Blank(v, level)
  {
  }

  lemma EntryUnchangedIff(entry: (string, Value), level: nat)
    requires !SensitiveKey(entry.0) ==> (Sanitize(Redact(entry.1), level) == entry.1 <==> Presentable(entry.1, level))
    ensures (CutKey(entry.0), AfterBoth(entry, level)) == entry <==> PresentableEntry(entry, level)
  {
    CutIsSameIff(entry.0);
    HiddenIsBlankIff(entry.1, level);
    assert entry == (entry.0, entry.1);
  }

  lemma BuiltUnchangedIff(entries: seq<(string, Value)>, pairs: seq<(string, Value)>)
    requires |pairs| == LesserOf(|entries|, 20)
    ensures (if |entries| > 20 then Put(Build(pairs), MARK, Bool(true)) else Build(pairs)) == entries <==>
            && DistinctKeys(entries)
            && (|entries| <= 20 || (|entries| == 21 && entries[20] == (MARK, Bool(true))))
            && pairs == entries[..|pairs|]
  {
    var built := Build(pairs);
    BuildShape(pairs);
    PutShape(built, MARK, Bool(true));
    PutValue(built, MARK, Bool(true));
    if |built| == |pairs| {
      FullBuildIsList(pairs);
    }
    if DistinctKeys(entries) && pairs == entries[..|pairs|] {
      BuildOfDistinct(pairs);
      if |entries| == 21 && entries[20] == (MARK, Bool(true)) {
        assert !HasKey(pairs, MARK);
        assert entries == pairs + [entries[20]];
      }
    }
  }

  lemma DictUnchangedIff(entries: seq<(string, Value)>, level: nat)
    requires level < MAX_DEPTH
    requires forall i :: 0 <= i < LesserOf(|entries|, 20) && !SensitiveKey(entries[i].0) ==>
               (Sanitize(Redact(entries[i].1), level + 1) == entries[i].1 <==> Presentable(entries[i].1, level + 1))
    ensures Sanitize(Redact(Dict(entries)), level) == Dict(entries) <==> Presentable(Dict(entries), level)
  {
    var pairs := PairsOf(entries, level);
    forall i | 0 <= i < |pairs|
      ensures pairs[i] == entries[i] <==> PresentableEntry(entries[i], level + 1)
    {
      EntryUnchangedIff(entries[i], level + 1);
    }
    BuiltUnchangedIff(entries, pairs);
    assert pairs == entries[..|pairs|] <==> forall i :: 0 <= i < |pairs| ==> pairs[i] == entries[i];
    DictPresentable(entries, level);
    RedactedDict(entries, level, pairs);
  }

  lemma RedactedDict(entries: seq<(string, Value)>, level: nat, pairs: seq<(string, Value)>)
    requires level < MAX_DEPTH && pairs == SanitizePairs(Prefix(Redact(Dict(entries)).entries, MAX_KEYS), level)
    ensures Sanitize(Redact(Dict(entries)), level) == Dict(if |entries| > 20 then Put(Build(pairs), MARK, Bool(true)) else Build(pairs))
  {
  }

  lemma DictPresentable(entries: seq<(string, Value)>, level: nat)
    requires level < MAX_DEPTH
    ensures Presentable(Dict(entries), level) <==>
            && DistinctKeys(entries)
            && (|entries| <= 20 || (|entries| == 21 && entries[20] == (MARK, Bool(true))))
            && forall i :: 0 <= i < LesserOf(|entries|, 20) ==> PresentableEntry(entries[i], level + 1)
  {
  }

  lemma {:induction false} UnchangedIff(v: Value, level: nat)
    ensures Sanitize(Redact(v), level) == v <==> Presentable(v, level)
    decreases v
  {
    if level >= MAX_DEPTH || (!v.Dict? && !v.List?) {
      LeafUnchangedIff(v, level);
    } else if v.List? {
      forall i | 0 <= i < |v.items|
        ensures Sanitize(Redact(v.items[i]), level + 1) == v.items[i] <==> Presentable(v.items[i], level + 1)
      {
        UnchangedIff(v.items[i], level + 1);
      }
      ListUnchangedIff(v.items, level);
    } else {
      forall i | 0 <= i < |v.entries|
        ensures Sanitize(Redact(v.entries[i].1), level + 1) == v.entries[i].1 <==> Presentable(v.entries[i].1, level + 1)
      {
        UnchangedIff(v.entries[i].1, level + 1);
      }
      DictUnchangedIff(v.entries, level);
    }
  }

  // Metadata comes back unchanged exactly when it is within all bounds, with nothing
  // secret in it.
  lemma MetadataUnchangedIff(v: Value)
    ensures SanitizeMetadata(v) == v <==> Presentable(v, 0)
  {
    UnchangedIff(v, 0);
  }
}
