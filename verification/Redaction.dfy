/**
 Redaction of configurations for diagnostic bundles: strings under keys that look
 like secrets are masked, at any depth. A key governs the strings of the lists
 below it, but not what lies in a nested dictionary.
 */
module Redaction {
  import opened Wrappers

  // ---- Values ----

  /** JSON-like values; an atom is a number, a boolean or null. */
  datatype Value = Dict(entries: seq<Entry>) | List(items: seq<Value>) | Text(text: string) | Atom(literal: string)

  datatype Entry = Entry(key: string, value: Value)

  // ---- Keys ----

  const SENSITIVE_KEY_SUBSTRINGS: seq<string> := [
    "password", "passwd", "secret", "token", "apikey", "api_key",
    "authorization", "bearer", "cookie", "session", "private",
    "ssh", "cert", "key", "salt", "credential"
  ]

  function LowerChar(c: char): char { if 'A' <= c <= 'Z' then c - 'A' + 'a' else c }

  function Lower(s: string): (r: string)
    ensures |r| == |s| && forall i :: 0 <= i < |s| ==> r[i] == LowerChar(s[i])
  {
    if s == "" then "" else Lower(s[..|s| - 1]) + [LowerChar(s[|s| - 1])]
  }

  predicate OccursAt(part: string, s: string, i: int) { 0 <= i <= |s| - |part| && s[i..i + |part|] == part }

  predicate Contains(s: string, part: string) { exists i :: 0 <= i <= |s| && OccursAt(part, s, i) }

  predicate SensitiveKey(key: string) {
    exists n :: 0 <= n < |SENSITIVE_KEY_SUBSTRINGS| && Contains(Lower(key), SENSITIVE_KEY_SUBSTRINGS[n])
  }

  /** A name that marks a key as sensitive. */
  predicate Marker(part: string) {
    part in ["password", "passwd", "secret", "token", "apikey", "api_key", "authorization", "bearer", "cookie",
             "session", "private", "ssh", "cert", "key", "salt", "credential"]
  }

  lemma MarkersAreListed(part: string)
    ensures Marker(part) <==> part in SENSITIVE_KEY_SUBSTRINGS
  {
  }

  /** The key is `part` with something before and something after it, in any letter case. */
  predicate Spells(key: string, before: string, part: string, after: string) { Lower(key) == before + part + after }

  lemma ContainsSpells(key: string, part: string)
    ensures Contains(Lower(key), part) <==> exists before, after :: Spells(key, before, part, after)
  {
    var s := Lower(key);
    if Contains(s, part) {
      var i :| 0 <= i <= |s| && OccursAt(part, s, i);
      assert s == s[..i] + s[i..i + |part|] + s[i + |part|..];
      assert Spells(key, s[..i], part, s[i + |part|..]);
    }
    if before, after :| Spells(key, before, part, after) {
      assert s[|before|..|before| + |part|] == part;
      assert OccursAt(part, s, |before|);
    }
  }

  /** A key is sensitive exactly if one of the names is part of it, in any letter case. */
  lemma SensitiveIff(key: string)
    ensures SensitiveKey(key) <==> exists before, part, after :: Marker(part) && Spells(key, before, part, after)
  {
    forall part
      ensures Marker(part) <==> part in SENSITIVE_KEY_SUBSTRINGS
      ensures Contains(Lower(key), part) <==> exists before, after :: Spells(key, before, part, after)
    {
      MarkersAreListed(part);
      ContainsSpells(key, part);
    }
    AnyListed(Lower(key), SENSITIVE_KEY_SUBSTRINGS);
  }

  lemma AnyListed(s: string, parts: seq<string>)
    ensures (exists n :: 0 <= n < |parts| && Contains(s, parts[n])) <==>
            exists part :: part in parts && Contains(s, part)
  {
    if part :| part in parts && Contains(s, part) {
      var n :| 0 <= n < |parts| && parts[n] == part;
      assert Contains(s, parts[n]);
    }
  }

  predicate LowerCase(name: string) { forall i :: 0 <= i < |name| ==> 'a' <= name[i] <= 'z' || name[i] == '_' }

  /** The key is the name with some of its letters, or all, written as capitals. */
  predicate Capitals(name: string, key: string) {
    && |key| == |name|
    && forall i :: 0 <= i < |key| ==> key[i] == name[i] || ('a' <= name[i] <= 'z' && key[i] == name[i] - 'a' + 'A')
  }

  lemma LowerOfCapitals(name: string, key: string)
    requires LowerCase(name) && Capitals(name, key)
    ensures Lower(key) == name
  {
  }

  /** Each of the names is a sensitive key itself, in capitals too. */
  lemma NamesAreSensitive(name: string, key: string)
    requires Marker(name) && Capitals(name, key)
    ensures SensitiveKey(key)
  {
    MarkersAreLower(name);
    LowerOfCapitals(name, key);
    assert name == "" + name + "";
    assert Spells(key, "", name, "");
    SensitiveIff(key);
  }

  lemma MarkersAreLower(name: string)
    requires Marker(name)
    ensures LowerCase(name)
  {
  }

  /** A key stays sensitive inside any longer key, in any letter case. */
  lemma SensitiveInside(before: string, key: string, after: string, longer: string)
    requires SensitiveKey(key) && Lower(longer) == Lower(before + key + after)
    ensures SensitiveKey(longer)
  {
    var n :| 0 <= n < |SENSITIVE_KEY_SUBSTRINGS| && Contains(Lower(key), SENSITIVE_KEY_SUBSTRINGS[n]);
    var part := SENSITIVE_KEY_SUBSTRINGS[n];
    var i :| 0 <= i <= |key| && OccursAt(part, Lower(key), i);
    LowerInside(before, key, after);
    OccursInside(part, Lower(key), i, Lower(longer), |before|);
  }

  lemma LowerInside(before: string, key: string, after: string)
    ensures Lower(before + key + after)[|before|..|before| + |key|] == Lower(key)
  {
  }

  lemma OccursInside(part: string, s: string, i: nat, longer: string, start: nat)
    requires OccursAt(part, s, i) && start + |s| <= |longer| && longer[start..start + |s|] == s
    ensures OccursAt(part, longer, start + i)
  {
    forall k | 0 <= k < |part|
      ensures longer[start + i + k] == part[k]
    {
      assert longer[start..start + |s|][i + k] == s[i + k];
      assert s[i..i + |part|][k] == part[k];
    }
  }

  // ---- Redaction ----

  const REDACTED := "[REDACTED]"

  /** Short secrets disappear; longer ones keep their first and last four characters. */
  function Masked(s: string): (r: string)
    ensures |s| <= 8 ==> r == "[REDACTED]"
    ensures |s| > 8 ==> |r| == 12 && r[..4] == s[..4] && r[4..8] == "****" && r[8..] == s[|s| - 4..]
  { if |s| <= 8 then REDACTED else s[..4] + "****" + s[|s| - 4..] }

  function Redacted(v: Value, key: string): Value {
    match v
    case Dict(entries) =>
      Dict(seq(|entries|, i requires 0 <= i < |entries| =>
               Entry(entries[i].key, Redacted(entries[i].value, entries[i].key))))
    case List(items) => List(seq(|items|, i requires 0 <= i < |items| => Redacted(items[i], key)))
    case Text(text) => if SensitiveKey(key) then Text(Masked(text)) else v
    case Atom(_) => v
  }

  function RedactConfig(config: Value): Value { Redacted(config, "") }

  // ---- Places in a value ----

  /** What stands at a path of positions; the empty path is the value itself. */
  function At(v: Value, path: seq<nat>): Option<Value> {
    if path == [] then Some(v)
    else
      match v
      case Dict(entries) => if path[0] < |entries| then At(entries[path[0]].value, path[1..]) else None
      case List(items) => if path[0] < |items| then At(items[path[0]], path[1..]) else None
      case _ => None
  }

  /** The key that governs a place: that of the innermost dictionary on the way to it, or else the inherited one. */
  function KeyAt(v: Value, path: seq<nat>, key: string): string {
    if path == [] then key
    else
      match v
      case Dict(entries) =>
        if path[0] < |entries| then KeyAt(entries[path[0]].value, path[1..], entries[path[0]].key) else key
      case List(items) => if path[0] < |items| then KeyAt(items[path[0]], path[1..], key) else key
      case _ => key
  }

  /** Same kind of value, same keys in order, same number of items, same atom. */
  predicate SameShape(v: Value, w: Value) {
    match (v, w)
    case (Dict(a), Dict(b)) => |a| == |b| && forall i :: 0 <= i < |a| ==> a[i].key == b[i].key
    case (List(a), List(b)) => |a| == |b|
    case (Text(_), Text(_)) => true
    case (Atom(a), Atom(b)) => a == b
    case _ => false
  }

  predicate Governed(v: Value, path: seq<nat>, key: string) { SensitiveKey(KeyAt(v, path, key)) }

  /**
   Redaction place by place: the result has a place exactly where the input has
   one, with the same shape there, and a string changes only if the key that
   governs it is sensitive, and then into its mask.
   */
  lemma {:induction false} RedactedAt(v: Value, key: string, path: seq<nat>)
    ensures match At(v, path)
            case None => At(Redacted(v, key), path) == None
            case Some(x) =>
              && At(Redacted(v, key), path).Some?
              && var y := At(Redacted(v, key), path).value;
              && SameShape(x, y)
              && y == Redacted(x, KeyAt(v, path, key))
              && (x.Text? ==> y == Text(if Governed(v, path, key) then Masked(x.text) else x.text))
    decreases |path|
  {
    if path != [] {
      match v {
        case Dict(entries) =>
          if path[0] < |entries| {
            RedactedAt(entries[path[0]].value, entries[path[0]].key, path[1..]);
          }
        case List(items) =>
          if path[0] < |items| {
            RedactedAt(items[path[0]], key, path[1..]);
          }
        case _ =>
      }
    }
  }

  // ---- What the output reveals ----

  /** Secrets that a mask does not tell apart: both short, or both long with the same four characters at either end. */
  predicate AlikeMasked(s: string, t: string) {
    if |s| <= 8 then |t| <= 8 else |t| > 8 && s[..4] == t[..4] && s[|s| - 4..] == t[|t| - 4..]
  }

  lemma MaskRevealsOnlyEnds(s: string, t: string)
    ensures Masked(s) == Masked(t) <==> AlikeMasked(s, t)
  {
    if |s| > 8 && |t| > 8 {
      assert Masked(s)[..4] == s[..4] && Masked(s)[8..] == s[|s| - 4..];
      assert Masked(t)[..4] == t[..4] && Masked(t)[8..] == t[|t| - 4..];
    }
  }

  /** Values that differ in nothing but secrets that masks do not tell apart. */
  predicate Alike(v: Value, w: Value, key: string) {
    match (v, w)
    case (Dict(a), Dict(b)) =>
      |a| == |b| && forall i :: 0 <= i < |a| ==> a[i].key == b[i].key && Alike(a[i].value, b[i].value, a[i].key)
    case (List(a), List(b)) => |a| == |b| && forall i :: 0 <= i < |a| ==> Alike(a[i], b[i], key)
    case (Text(s), Text(t)) => if SensitiveKey(key) then AlikeMasked(s, t) else s == t
    case (Atom(a), Atom(b)) => a == b
    case _ => false
  }

  /** Noninterference, exactly: two inputs give the same output if and only if they are alike. */
  lemma {:induction false} OutputsEqualIffAlike(v: Value, w: Value, key: string)
    ensures Redacted(v, key) == Redacted(w, key) <==> Alike(v, w, key)
    decreases v
  {
    match (v, w) {
      case (Dict(a), Dict(b)) =>
        forall i | 0 <= i < |a| && |a| == |b| && a[i].key == b[i].key
          ensures Redacted(a[i].value, a[i].key) == Redacted(b[i].value, b[i].key) <==>
                  Alike(a[i].value, b[i].value, a[i].key)
        {
          OutputsEqualIffAlike(a[i].value, b[i].value, a[i].key);
        }
        DictsEqualIff(a, b, key);
      case (List(a), List(b)) =>
        forall i | 0 <= i < |a| && |a| == |b|
          ensures Redacted(a[i], key) == Redacted(b[i], key) <==> Alike(a[i], b[i], key)
        {
          OutputsEqualIffAlike(a[i], b[i], key);
        }
        ListsEqualIff(a, b, key);
      case (Text(s), Text(t)) => MaskRevealsOnlyEnds(s, t);
      case _ =>
    }
  }

  lemma DictsEqualIff(a: seq<Entry>, b: seq<Entry>, key: string)
    ensures Redacted(Dict(a), key) == Redacted(Dict(b), key) <==>
            |a| == |b| && forall i :: 0 <= i < |a| ==>
              a[i].key == b[i].key && Redacted(a[i].value, a[i].key) == Redacted(b[i].value, b[i].key)
  {
    var x, y := Redacted(Dict(a), key).entries, Redacted(Dict(b), key).entries;
    assert |x| == |a| && |y| == |b|;
    assert forall i :: 0 <= i < |a| ==> x[i] == Entry(a[i].key, Redacted(a[i].value, a[i].key));
    assert forall i :: 0 <= i < |b| ==> y[i] == Entry(b[i].key, Redacted(b[i].value, b[i].key));
    if x == y {
      forall i | 0 <= i < |a|
        ensures a[i].key == b[i].key && Redacted(a[i].value, a[i].key) == Redacted(b[i].value, b[i].key)
      {
        assert x[i] == y[i];
      }
    }
  }

  lemma ListsEqualIff(a: seq<Value>, b: seq<Value>, key: string)
    ensures Redacted(List(a), key) == Redacted(List(b), key) <==>
            |a| == |b| && forall i :: 0 <= i < |a| ==> Redacted(a[i], key) == Redacted(b[i], key)
  {
    var x, y := Redacted(List(a), key).items, Redacted(List(b), key).items;
    assert |x| == |a| && |y| == |b|;
    assert forall i :: 0 <= i < |a| ==> x[i] == Redacted(a[i], key);
    assert forall i :: 0 <= i < |b| ==> y[i] == Redacted(b[i], key);
    if x == y {
      forall i | 0 <= i < |a|
        ensures Redacted(a[i], key) == Redacted(b[i], key)
      {
        assert x[i] == y[i];
      }
    }
  }

  // ---- Redacting again ----

  /** A governed string of at most eight characters; its mask is longer than that,
      and so is masked differently again. */
  predicate HasShortSecret(v: Value, key: string) {
    match v
    case Dict(entries) => exists i :: 0 <= i < |entries| && HasShortSecret(entries[i].value, entries[i].key)
    case List(items) => exists i :: 0 <= i < |items| && HasShortSecret(items[i], key)
    case Text(text) => SensitiveKey(key) && |text| <= 8
    case Atom(_) => false
  }

  lemma MaskOfMask(s: string)
    ensures Masked(Masked(s)) == Masked(s) <==> |s| > 8
    ensures Masked(Masked(Masked(s))) == Masked(Masked(s))
  {
    if |s| > 8 {
      assert Masked(s)[..4] == s[..4] && Masked(s)[|Masked(s)| - 4..] == s[|s| - 4..];
    } else {
      assert Masked(REDACTED) == "[RED****TED]";
      assert Masked("[RED****TED]") == "[RED****TED]";
    }
  }

  /** One pass is stable exactly when no governed string is short. */
  lemma {:induction false} OncePassIsStableIff(v: Value, key: string)
    ensures Redacted(Redacted(v, key), key) == Redacted(v, key) <==> !HasShortSecret(v, key)
  {
    OutputsEqualIffAlike(Redacted(v, key), v, key);
    OnceAlikeIff(v, key);
  }

  lemma {:induction false} OnceAlikeIff(v: Value, key: string)
    ensures Alike(Redacted(v, key), v, key) <==> !HasShortSecret(v, key)
    decreases v
  {
    match v {
      case Dict(entries) =>
        forall i | 0 <= i < |entries|
          ensures Alike(Redacted(entries[i].value, entries[i].key), entries[i].value, entries[i].key) <==>
                  !HasShortSecret(entries[i].value, entries[i].key)
        {
          OnceAlikeIff(entries[i].value, entries[i].key);
        }
      case List(items) =>
        forall i | 0 <= i < |items|
          ensures Alike(Redacted(items[i], key), items[i], key) <==> !HasShortSecret(items[i], key)
        {
          OnceAlikeIff(items[i], key);
        }
      case Text(s) =>
        MaskOfMask(s);
        MaskRevealsOnlyEnds(Masked(s), s);
      case Atom(_) =>
    }
  }

  /** After a pass no governed string is short, so two passes are always stable. */
  lemma {:induction false} NoShortSecretLeft(v: Value, key: string)
    ensures !HasShortSecret(Redacted(v, key), key)
    decreases v
  {
    match v {
      case Dict(entries) =>
        forall i | 0 <= i < |entries|
          ensures !HasShortSecret(Redacted(entries[i].value, entries[i].key), entries[i].key)
        {
          NoShortSecretLeft(entries[i].value, entries[i].key);
        }
      case List(items) =>
        forall i | 0 <= i < |items|
          ensures !HasShortSecret(Redacted(items[i], key), key)
        {
          NoShortSecretLeft(items[i], key);
        }
      case _ =>
    }
  }

  /** Three passes are two. */
  lemma ThirdPassChangesNothing(config: Value)
    ensures RedactConfig(RedactConfig(RedactConfig(config))) == RedactConfig(RedactConfig(config))
  {
    NoShortSecretLeft(config, "");
    OncePassIsStableIff(RedactConfig(config), "");
  }
}
