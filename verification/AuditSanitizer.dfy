// Redaction and bounding of audit metadata: auth/security.py:10-29 and 60-117.

module AuditSanitizer {

  // JSON-like values. A dictionary is the sequence of its items in insertion
  // order, each key once.
  datatype Value =
    | Null
    | Bool(flag: bool)
    | Number(text: string)
    | Text(text: string)
    | List(items: seq<Value>)
    | Dict(entries: seq<(string, Value)>)
    | Unsupported

  const MAX_KEYS := 20
  const MAX_ITEMS := 20
  const MAX_DEPTH := 4
  const MAX_TEXT := 256
  const MAX_KEY := 64

  const REDACTED := "[REDACTED]"
  const TRUNCATED := "[TRUNCATED]"
  const UNSUPPORTED := "[UNSUPPORTED]"
  const MARK := "_truncated"

  const SECRET_PATTERNS: seq<string> := [
    "secret", "token", "key", "password", "credential", "cookie", "authorization", "email",
    "request_body", "raw_body", "verification_code"]

  // ---- what looks like a secret ----

  function LowerChar(c: char): char {
    if 'A' <= c <= 'Z' then (c - 'A') + 'a' else c
  }

  function Lower(s: string): (r: string)
    ensures |r| == |s|
  {
    if s == "" then "" else [LowerChar(s[0])] + Lower(s[1..])
  }

  predicate At(s: string, pattern: string, i: nat) {
    i + |pattern| <= |s| && forall j :: 0 <= j < |pattern| ==> s[i + j] == pattern[j]
  }

  predicate Contains(s: string, pattern: string) {
    exists i: nat :: i <= |s| && At(s, pattern, i)
  }

  predicate SensitiveKey(key: string) {
    exists i :: 0 <= i < |SECRET_PATTERNS| && Contains(Lower(key), SECRET_PATTERNS[i])
  }

  predicate Word(c: char) {
    'a' <= c <= 'z' || 'A' <= c <= 'Z' || '0' <= c <= '9' || c == '_'
  }

  predicate DomainChar(c: char) {
    Word(c) || c == '-'
  }

  // A match of the address pattern: one character of the local part at a, the
  // at-sign behind it, a first label up to the dot at d, and one more character.
  predicate AddressAt(s: string, a: nat, d: nat) {
    && a + 2 < d && d + 1 < |s|
    && (Word(s[a]) || s[a] in {'.', '+', '-'})
    && s[a + 1] == '@' && s[d] == '.' && DomainChar(s[d + 1])
    && forall i :: a + 2 <= i < d ==> DomainChar(s[i])
  }

  predicate HasAddress(s: string) {
    exists a, d :: 0 <= a < |s| && 0 <= d < |s| && AddressAt(s, a, d)
  }

  const SECRET_MARKS: seq<string> := ["sk-", "apikey", "api_key", "api-key", "token", "secret"]

  predicate HasMark(s: string) {
    exists i :: 0 <= i < |SECRET_MARKS| && Contains(Lower(s), SECRET_MARKS[i])
  }

  predicate SecretLike(s: string) {
    HasAddress(s) || (|s| >= 16 && HasMark(s))
  }

  // ---- redact_sensitive ----

  function Redact(v: Value): Value {
    match v
    case Dict(entries) => Dict(seq(|entries|, i requires 0 <= i < |entries| => RedactEntry(entries[i])))
    case List(items) => List(seq(|items|, i requires 0 <= i < |items| => Redact(items[i])))
    case Text(s) => Text(if SecretLike(s) then REDACTED else s)
    case _ => v
  }

  function RedactEntry(entry: (string, Value)): (string, Value) {
    (entry.0, if SensitiveKey(entry.0) then Text(REDACTED) else Redact(entry.1))
  }

  // ---- _sanitize_value ----

  function Prefix<T>(s: seq<T>, n: nat): (r: seq<T>)
    ensures |r| <= n && |r| <= |s| && r == s[..|r|]
    ensures |s| <= n ==> r == s
    ensures |s| > n ==> |r| == n
  {
    if |s| <= n then s else s[..n]
  }

  function ShortKey(key: string): string {
    Prefix(key, MAX_KEY)
  }

  // d[key] = value: a key already there keeps its place.
  function Put(entries: seq<(string, Value)>, key: string, value: Value): seq<(string, Value)> {
    if entries == [] then [(key, value)]
    else if entries[0].0 == key then [(key, value)] + entries[1..]
    else [entries[0]] + Put(entries[1..], key, value)
  }

  // A dictionary built by assigning the pairs in order.
  function Build(pairs: seq<(string, Value)>): seq<(string, Value)> {
    if pairs == [] then []
    else Put(Build(pairs[..|pairs| - 1]), pairs[|pairs| - 1].0, pairs[|pairs| - 1].1)
  }

  function Sanitize(v: Value, depth: nat): Value
    decreases MAX_DEPTH - depth
  {
    if depth >= MAX_DEPTH then
      Text(TRUNCATED)
    else
      match v
      case Dict(entries) =>
        var kept := Build(SanitizePairs(Prefix(entries, MAX_KEYS), depth));
        Dict(if |entries| > MAX_KEYS then Put(kept, MARK, Bool(true)) else kept)
      case List(items) =>
        var kept := SanitizeItems(Prefix(items, MAX_ITEMS), depth);
        List(if |items| > MAX_ITEMS then kept + [Text(TRUNCATED)] else kept)
      case Text(s) => Text(Prefix(s, MAX_TEXT))
      case Unsupported => Text(UNSUPPORTED)
      case _ => v
  }

  function SanitizePairs(entries: seq<(string, Value)>, depth: nat): (pairs: seq<(string, Value)>)
    requires depth < MAX_DEPTH
    ensures |pairs| == |entries|
    ensures forall i :: 0 <= i < |pairs| ==> pairs[i] == (ShortKey(entries[i].0), Sanitize(entries[i].1, depth + 1))
    decreases MAX_DEPTH - depth, 0
  {
    seq(|entries|, i requires 0 <= i < |entries| => (ShortKey(entries[i].0), Sanitize(entries[i].1, depth + 1)))
  }

  function SanitizeItems(items: seq<Value>, depth: nat): (kept: seq<Value>)
    requires depth < MAX_DEPTH
    ensures |kept| == |items|
    ensures forall i :: 0 <= i < |kept| ==> kept[i] == Sanitize(items[i], depth + 1)
    decreases MAX_DEPTH - depth, 0
  {
    seq(|items|, i requires 0 <= i < |items| => Sanitize(items[i], depth + 1))
  }

  // sanitize_audit_metadata
  function SanitizeMetadata(v: Value): Value {
    Sanitize(Redact(v), 0)
  }

  // ---- parts of a text look no more secret than the whole ----

  lemma {:induction false} LowerOfPrefix(s: string, n: nat)
    requires n <= |s|
    ensures Lower(s[..n]) == Lower(s)[..n]
  {
    if n > 0 {
      LowerOfPrefix(s[1..], n - 1);
      assert s[..n][1..] == s[1..][..n - 1];
    }
  }

  lemma PrefixAt(s: string, n: nat, pattern: string, i: nat)
    requires n <= |s| && At(s[..n], pattern, i)
    ensures At(s, pattern, i)
  {
    forall j | 0 <= j < |pattern|
      ensures s[i + j] == pattern[j]
    {
      assert s[..n][i + j] == pattern[j];
    }
  }

  lemma PrefixHolds(s: string, n: nat, pattern: string)
    requires n <= |s| && Contains(s[..n], pattern)
    ensures Contains(s, pattern)
  {
    var i: nat :| i <= n && At(s[..n], pattern, i);
    PrefixAt(s, n, pattern, i);
  }

  lemma PrefixContains(s: string, n: nat, pattern: string)
    requires n <= |s| && Contains(Lower(s[..n]), pattern)
    ensures Contains(Lower(s), pattern)
  {
    LowerOfPrefix(s, n);
    PrefixHolds(Lower(s), n, pattern);
  }

  lemma PrefixHasAddress(s: string, n: nat)
    requires n <= |s| && HasAddress(s[..n])
    ensures HasAddress(s)
  {
    var a, d :| 0 <= a < n && 0 <= d < n && AddressAt(s[..n], a, d);
    assert AddressAt(s, a, d);
  }

  lemma PrefixIsNoMoreSecret(s: string, n: nat)
    requires n <= |s| && SecretLike(s[..n])
    ensures SecretLike(s)
  {
    if HasAddress(s[..n]) {
      PrefixHasAddress(s, n);
    } else {
      var i :| 0 <= i < |SECRET_MARKS| && Contains(Lower(s[..n]), SECRET_MARKS[i]);
      PrefixContains(s, n, SECRET_MARKS[i]);
    }
  }

  lemma ShortKeyIsNoMoreSensitive(key: string)
    requires SensitiveKey(ShortKey(key))
    ensures SensitiveKey(key)
  {
    var i :| 0 <= i < |SECRET_PATTERNS| && Contains(Lower(ShortKey(key)), SECRET_PATTERNS[i]);
    PrefixContains(key, |ShortKey(key)|, SECRET_PATTERNS[i]);
  }

  lemma PlainText(s: string)
    requires |s| < 16 && '@' !in s
    ensures !SecretLike(s)
  {
    forall a: nat, d: nat
      ensures !AddressAt(s, a, d)
    {
      if a + 2 < d < |s| {
        assert s[a + 1] in s;
      }
    }
  }

  lemma NotContained(s: string, pattern: string, j: nat)
    requires j < |pattern| && pattern[j] !in s
    ensures !Contains(s, pattern)
  {
    forall i: nat
      ensures !At(s, pattern, i)
    {
      if i + |pattern| <= |s| {
        assert s[i + j] in s;
      }
    }
  }

  lemma {:induction false} LowerOfLower(s: string)
    requires forall i :: 0 <= i < |s| ==> LowerChar(s[i]) == s[i]
    ensures Lower(s) == s
  {
    if s != "" {
      LowerOfLower(s[1..]);
    }
  }

  lemma LowerMark()
    ensures Lower(MARK) == MARK
  {
    LowerOfLower(MARK);
  }

  predicate OddLetter(c: char) {
    c in {'s', 'o', 'k', 'p', 'i', 'h', 'm', 'q', 'w', 'v'}
  }

  lemma OddInMark(c: char)
    requires OddLetter(c)
    ensures c !in MARK
  {
  }

  lemma MarkLacks(pattern: string, j: nat)
    requires j < |pattern| && OddLetter(pattern[j])
    ensures !Contains(Lower(MARK), pattern)
  {
    LowerMark();
    OddInMark(pattern[j]);
    NotContained(MARK, pattern, j);
  }

  // A letter of each pattern that does not occur in the mark.
  const ODD_LETTERS: seq<nat> := [0, 1, 0, 0, 7, 1, 3, 1, 2, 2, 0]

  lemma OddLetters(i: nat)
    requires i < |SECRET_PATTERNS|
    ensures i < |ODD_LETTERS| && ODD_LETTERS[i] < |SECRET_PATTERNS[i]| && OddLetter(SECRET_PATTERNS[i][ODD_LETTERS[i]])
  {
  }

  lemma MarkIsNotSensitive()
    ensures !SensitiveKey(MARK)
  {
    forall i | 0 <= i < |SECRET_PATTERNS|
      ensures !Contains(Lower(MARK), SECRET_PATTERNS[i])
    {
      OddLetters(i);
      MarkLacks(SECRET_PATTERNS[i], ODD_LETTERS[i]);
    }
  }

  lemma ShortIsNotSensitive(key: string)
    requires |key| < 3
    ensures !SensitiveKey(key)
  {
    if i :| 0 <= i < |SECRET_PATTERNS| && Contains(Lower(key), SECRET_PATTERNS[i]) {
      assert false;
    }
  }

  // ---- dictionaries built by assignment ----

  ghost predicate DistinctKeys(entries: seq<(string, Value)>) {
    forall i, j :: 0 <= i < j < |entries| ==> entries[i].0 != entries[j].0
  }

  predicate HasKey(entries: seq<(string, Value)>, key: string) {
    exists i :: 0 <= i < |entries| && entries[i].0 == key
  }

  lemma {:induction false} PutShape(entries: seq<(string, Value)>, key: string, value: Value)
    ensures var r := Put(entries, key, value);
            && |r| == |entries| + (if HasKey(entries, key) then 0 else 1)
            && (forall i :: 0 <= i < |entries| ==> r[i].0 == entries[i].0 && (entries[i].0 != key ==> r[i] == entries[i]))
            && (!HasKey(entries, key) ==> r == entries + [(key, value)])
  {
    if entries != [] && entries[0].0 != key {
      PutShape(entries[1..], key, value);
      assert HasKey(entries, key) ==> HasKey(entries[1..], key);
    }
  }

  lemma {:induction false} PutValue(entries: seq<(string, Value)>, key: string, value: Value)
    requires DistinctKeys(entries)
    ensures var r := Put(entries, key, value);
            DistinctKeys(r) && forall i :: 0 <= i < |r| && r[i].0 == key ==> r[i].1 == value
  {
    if entries != [] {
      PutShape(entries, key, value);
      if entries[0].0 != key {
        assert DistinctKeys(entries[1..]);
        PutValue(entries[1..], key, value);
        assert Put(entries, key, value)[1..] == Put(entries[1..], key, value);
      }
    }
  }

  lemma {:induction false} BuildShape(pairs: seq<(string, Value)>)
    ensures DistinctKeys(Build(pairs)) && |Build(pairs)| <= |pairs|
    ensures forall p :: p in Build(pairs) ==> p in pairs
  {
    if pairs != [] {
      var front, last := pairs[..|pairs| - 1], pairs[|pairs| - 1];
      BuildShape(front);
      PutShape(Build(front), last.0, last.1);
      PutValue(Build(front), last.0, last.1);
      PutMembers(Build(front), last.0, last.1);
    }
  }

  lemma {:induction false} PutMembers(entries: seq<(string, Value)>, key: string, value: Value)
    ensures forall p :: p in Put(entries, key, value) ==> p in entries || p == (key, value)
  {
    if entries != [] && entries[0].0 != key {
      PutMembers(entries[1..], key, value);
    }
  }

  // Assigning distinct keys just lists them.
  lemma {:induction false} BuildOfDistinct(pairs: seq<(string, Value)>)
    requires DistinctKeys(pairs)
    ensures Build(pairs) == pairs
  {
    if pairs != [] {
      var front, last := pairs[..|pairs| - 1], pairs[|pairs| - 1];
      BuildOfDistinct(front);
      PutShape(front, last.0, last.1);
    }
  }

  // ---- bounds ----

  // Nested at most room levels deep, with at most 21 entries on every level, no
  // text over 256 and no key over 64 characters, and nothing unsupported.
  predicate Bounded(v: Value, room: nat) {
    match v
    case Dict(entries) =>
      && room > 0 && |entries| <= MAX_KEYS + 1
      && forall i :: 0 <= i < |entries| ==> |entries[i].0| <= MAX_KEY && Bounded(entries[i].1, room - 1)
    case List(items) =>
      && room > 0 && |items| <= MAX_ITEMS + 1
      && forall i :: 0 <= i < |items| ==> Bounded(items[i], room - 1)
    case Text(s) => |s| <= MAX_TEXT
    case Unsupported => false
    case _ => true
  }

  lemma BuiltIsBounded(entries: seq<(string, Value)>, depth: nat)
    requires depth < MAX_DEPTH && |entries| <= MAX_KEYS
    requires forall i :: 0 <= i < |entries| ==> Bounded(Sanitize(entries[i].1, depth + 1), MAX_DEPTH - depth - 1)
    ensures var kept := Build(SanitizePairs(entries, depth));
            Bounded(Dict(kept), MAX_DEPTH - depth) && Bounded(Dict(Put(kept, MARK, Bool(true))), MAX_DEPTH - depth)
  {
    var pairs := SanitizePairs(entries, depth);
    BuildShape(pairs);
    PutShape(Build(pairs), MARK, Bool(true));
    PutMembers(Build(pairs), MARK, Bool(true));
    EntriesAreBounded(Build(pairs), pairs, MAX_DEPTH - depth);
    EntriesAreBounded(Put(Build(pairs), MARK, Bool(true)), pairs + [(MARK, Bool(true))], MAX_DEPTH - depth);
  }

  lemma DictIsBounded(v: Value, depth: nat)
    requires depth < MAX_DEPTH && v.Dict?
    requires forall i :: 0 <= i < |Prefix(v.entries, MAX_KEYS)| ==>
               Bounded(Sanitize(Prefix(v.entries, MAX_KEYS)[i].1, depth + 1), MAX_DEPTH - depth - 1)
    ensures Bounded(Sanitize(v, depth), MAX_DEPTH - depth)
  {
    BuiltIsBounded(Prefix(v.entries, MAX_KEYS), depth);
  }

  lemma ListIsBounded(v: Value, depth: nat)
    requires depth < MAX_DEPTH && v.List?
    requires forall i :: 0 <= i < |Prefix(v.items, MAX_ITEMS)| ==>
               Bounded(Sanitize(Prefix(v.items, MAX_ITEMS)[i], depth + 1), MAX_DEPTH - depth - 1)
    ensures Bounded(Sanitize(v, depth), MAX_DEPTH - depth)
  {
    ItemsAreBounded(Prefix(v.items, MAX_ITEMS), depth);
  }

  // Whatever the input, the output is bounded.
  lemma {:induction false} SanitizedIsBounded(v: Value, depth: nat)
    requires depth <= MAX_DEPTH
    ensures Bounded(Sanitize(v, depth), MAX_DEPTH - depth)
    decreases MAX_DEPTH - depth
  {
    if depth < MAX_DEPTH && v.Dict? {
      var hs := Prefix(v.entries, MAX_KEYS);
      forall i | 0 <= i < |hs|
        ensures Bounded(Sanitize(hs[i].1, depth + 1), MAX_DEPTH - depth - 1)
      {
        SanitizedIsBounded(hs[i].1, depth + 1);
      }
      DictIsBounded(v, depth);
    } else if depth < MAX_DEPTH && v.List? {
      var hs := Prefix(v.items, MAX_ITEMS);
      forall i | 0 <= i < |hs|
        ensures Bounded(Sanitize(hs[i], depth + 1), MAX_DEPTH - depth - 1)
      {
        SanitizedIsBounded(hs[i], depth + 1);
      }
      ListIsBounded(v, depth);
    }
  }

  lemma ItemsAreBounded(items: seq<Value>, depth: nat)
    requires depth < MAX_DEPTH && |items| <= MAX_ITEMS
    requires forall i :: 0 <= i < |items| ==> Bounded(Sanitize(items[i], depth + 1), MAX_DEPTH - depth - 1)
    ensures Bounded(List(SanitizeItems(items, depth)), MAX_DEPTH - depth)
    ensures Bounded(List(SanitizeItems(items, depth) + [Text(TRUNCATED)]), MAX_DEPTH - depth)
  {
  }

  lemma EntriesAreBounded(entries: seq<(string, Value)>, pairs: seq<(string, Value)>, room: nat)
    requires room > 0 && |entries| <= MAX_KEYS + 1 && forall p :: p in entries ==> p in pairs
    requires forall i :: 0 <= i < |pairs| ==> |pairs[i].0| <= MAX_KEY && Bounded(pairs[i].1, room - 1)
    ensures Bounded(Dict(entries), room)
  {
    forall i | 0 <= i < |entries|
      ensures |entries[i].0| <= MAX_KEY && Bounded(entries[i].1, room - 1)
    {
      assert entries[i] in pairs;
    }
  }

  // ---- nothing secret is left ----

  // No text looks like a secret, and what stands under a sensitive key has been
  // blanked.
  predicate Clean(v: Value) {
    match v
    case Dict(entries) => forall i :: 0 <= i < |entries| ==> CleanEntry(entries[i])
    case List(items) => forall i :: 0 <= i < |items| ==> Clean(items[i])
    case Text(s) => !SecretLike(s)
    case _ => true
  }

  predicate CleanEntry(entry: (string, Value)) {
    Clean(entry.1) && (SensitiveKey(entry.0) ==> entry.1 in {Text(REDACTED), Text(TRUNCATED)})
  }

  // Redaction has been here.
  predicate Redacted(v: Value) {
    match v
    case Dict(entries) => forall i :: 0 <= i < |entries| ==> RedactedEntry(entries[i])
    case List(items) => forall i :: 0 <= i < |items| ==> Redacted(items[i])
    case Text(s) => !SecretLike(s)
    case _ => true
  }

  predicate RedactedEntry(entry: (string, Value)) {
    Redacted(entry.1) && (SensitiveKey(entry.0) ==> entry.1 == Text(REDACTED))
  }

  lemma {:induction false} RedactRedacts(v: Value)
    ensures Redacted(Redact(v))
  {
    match v
    case Dict(entries) =>
      forall i | 0 <= i < |entries|
        ensures RedactedEntry(RedactEntry(entries[i]))
      {
        PlainText(REDACTED);
        RedactRedacts(entries[i].1);
      }
    case List(items) =>
      forall i | 0 <= i < |items|
        ensures Redacted(Redact(items[i]))
      {
        RedactRedacts(items[i]);
      }
    case Text(_) => PlainText(REDACTED);
    case _ =>
  }

  lemma SanitizedEntryIsClean(entry: (string, Value), depth: nat)
    requires depth < MAX_DEPTH && RedactedEntry(entry) && Clean(Sanitize(entry.1, depth + 1))
    ensures CleanEntry((ShortKey(entry.0), Sanitize(entry.1, depth + 1)))
  {
    if SensitiveKey(ShortKey(entry.0)) {
      ShortKeyIsNoMoreSensitive(entry.0);
    }
  }

  lemma CleanMembers(entries: seq<(string, Value)>, pairs: seq<(string, Value)>)
    requires forall p :: p in entries ==> p in pairs
    requires forall i :: 0 <= i < |pairs| ==> CleanEntry(pairs[i])
    ensures Clean(Dict(entries))
  {
    forall i | 0 <= i < |entries|
      ensures CleanEntry(entries[i])
    {
      assert entries[i] in pairs;
    }
  }

  lemma BuiltIsClean(entries: seq<(string, Value)>, depth: nat)
    requires depth < MAX_DEPTH && |entries| <= MAX_KEYS
    requires forall i :: 0 <= i < |entries| ==> RedactedEntry(entries[i]) && Clean(Sanitize(entries[i].1, depth + 1))
    ensures var kept := Build(SanitizePairs(entries, depth));
            Clean(Dict(kept)) && Clean(Dict(Put(kept, MARK, Bool(true))))
  {
    var pairs := SanitizePairs(entries, depth);
    forall i | 0 <= i < |pairs|
      ensures CleanEntry(pairs[i])
    {
      SanitizedEntryIsClean(entries[i], depth);
    }
    BuildShape(pairs);
    CleanMembers(Build(pairs), pairs);
    MarkIsNotSensitive();
    PutMembers(Build(pairs), MARK, Bool(true));
    CleanMembers(Put(Build(pairs), MARK, Bool(true)), pairs + [(MARK, Bool(true))]);
  }

  lemma CleanItems(items: seq<Value>, depth: nat)
    requires depth < MAX_DEPTH
    requires forall i :: 0 <= i < |items| ==> Clean(Sanitize(items[i], depth + 1))
    ensures Clean(List(SanitizeItems(items, depth))) && Clean(List(SanitizeItems(items, depth) + [Text(TRUNCATED)]))
  {
    PlainText(TRUNCATED);
  }

  lemma CleanText(s: string)
    requires !SecretLike(s)
    ensures !SecretLike(Prefix(s, MAX_TEXT))
  {
    if SecretLike(Prefix(s, MAX_TEXT)) {
      PrefixIsNoMoreSecret(s, |Prefix(s, MAX_TEXT)|);
    }
  }

  lemma {:induction false} SanitizedIsClean(v: Value, depth: nat)
    requires Redacted(v)
    ensures Clean(Sanitize(v, depth))
    decreases MAX_DEPTH - depth
  {
    if depth >= MAX_DEPTH {
      PlainText(TRUNCATED);
    } else if v.Dict? {
      var hs := Prefix(v.entries, MAX_KEYS);
      forall i | 0 <= i < |hs|
        ensures RedactedEntry(hs[i]) && Clean(Sanitize(hs[i].1, depth + 1))
      {
        assert RedactedEntry(v.entries[i]);
        SanitizedIsClean(hs[i].1, depth + 1);
      }
      BuiltIsClean(hs, depth);
    } else if v.List? {
      var hs := Prefix(v.items, MAX_ITEMS);
      forall i | 0 <= i < |hs|
        ensures Clean(Sanitize(hs[i], depth + 1))
      {
        assert Redacted(v.items[i]);
        SanitizedIsClean(hs[i], depth + 1);
      }
      CleanItems(hs, depth);
    } else if v.Text? {
      CleanText(v.text);
    } else {
      PlainText(UNSUPPORTED);
    }
  }

  // Whatever goes into the audit log is bounded and holds nothing that looks like
  // a secret.
  lemma MetadataIsBoundedAndClean(v: Value)
    ensures Bounded(SanitizeMetadata(v), MAX_DEPTH) && Clean(SanitizeMetadata(v))
  {
    RedactRedacts(v);
    SanitizedIsBounded(Redact(v), 0);
    SanitizedIsClean(Redact(v), 0);
  }
}
