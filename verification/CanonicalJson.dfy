/**
  The canonical JSON writer behind every fingerprint: what it writes determines the value. String literals
  follow section 7 of RFC 8259. A number is the token it prints as; an object is a map.
 */
module CanonicalJson {
  import opened Wrappers
  import opened Text

  datatype Value =
    | Null
    | Bool(flag: bool)
    | Number(token: string)
    | Str(text: string)
    | Array(items: seq<Value>)
    | Object(members: map<string, Value>)

  predicate NumberChar(c: char) {
    '0' <= c <= '9' || c == '-' || c == '+' || c == '.' || c == 'e' || c == 'E'
  }

  predicate NumberToken(token: string) {
    && token != ""
    && ('0' <= token[0] <= '9' || token[0] == '-')
    && forall i | 0 <= i < |token| :: NumberChar(token[i])
  }

  /** Every number in the value has a number's token. */
  predicate WellFormed(v: Value) {
    match v
    case Null | Bool(_) | Str(_) => true
    case Number(token) => NumberToken(token)
    case Array(items) => forall i | 0 <= i < |items| :: WellFormed(items[i])
    case Object(members) => forall k | k in members :: WellFormed(members[k])
  }

  // String literals

  function HexDigit(n: nat): char
    requires n < 16
  {
    if n < 10 then ('0' as int + n) as char else ('a' as int + n - 10) as char
  }

  function Escape(c: char): string {
    if c == '"' then "\\\""
    else if c == '\\' then "\\\\"
    else if c == '\U{0008}' then "\\b"
    else if c == '\U{000C}' then "\\f"
    else if c == '\n' then "\\n"
    else if c == '\r' then "\\r"
    else if c == '\t' then "\\t"
    else if c < ' ' then "\\u00" + [HexDigit(c as int / 16), HexDigit(c as int % 16)]
    else [c]
  }

  function EscapeAll(s: string): string {
    if s == "" then "" else Escape(s[0]) + EscapeAll(s[1..])
  }

  function Quote(s: string): string {
    "\"" + EscapeAll(s) + "\""
  }

  lemma HexInjective(a: nat, b: nat)
    requires a < 256 && b < 256
    requires HexDigit(a / 16) == HexDigit(b / 16) && HexDigit(a % 16) == HexDigit(b % 16)
    ensures a == b
  {
  }

  /** How long an escape is shows in its first two characters. */
  lemma EscapeLength(c: char, rest: string)
    ensures var s := Escape(c) + rest;
            && s[0] != '"'
            && |Escape(c)| == (if s[0] != '\\' then 1 else if s[1] != 'u' then 2 else 6)
  {
  }

  lemma EscapeInjective(a: char, b: char)
    requires Escape(a) == Escape(b)
    ensures a == b
  {
    if a < ' ' && b < ' ' && |Escape(a)| == 6 {
      assert Escape(a)[4] == HexDigit(a as int / 16) && Escape(a)[5] == HexDigit(a as int % 16);
      assert Escape(b)[4] == HexDigit(b as int / 16) && Escape(b)[5] == HexDigit(b as int % 16);
      HexInjective(a as int, b as int);
    }
  }

  /** Equal concatenations split at the same place are equal part by part. */
  lemma SplitAt(a: string, s: string, b: string, t: string)
    requires a + s == b + t && |a| == |b|
    ensures a == b && s == t
  {
    assert a == (a + s)[..|a|] && b == (b + t)[..|b|];
    assert s == (a + s)[|a|..] && t == (b + t)[|b|..];
  }

  /** The rest of a string literal and what follows it. */
  function QuoteRest(a: string, s: string): string {
    EscapeAll(a) + ("\"" + s)
  }

  lemma QuoteRestStep(a: string, s: string)
    requires a != ""
    ensures QuoteRest(a, s) == Escape(a[0]) + QuoteRest(a[1..], s)
  {
  }

  lemma QuoteRestEnd(s: string)
    ensures QuoteRest("", s) == "\"" + s
  {
    assert QuoteRest("", s) == "" + ("\"" + s);
  }

  lemma {:induction false} QuotedTail(a: string, s: string, b: string, t: string)
    requires QuoteRest(a, s) == QuoteRest(b, t)
    ensures a == b && s == t
  {
    hide QuoteRest, Escape;
    if a == "" {
      QuoteRestEnd(s);
    } else {
      QuoteRestStep(a, s);
      EscapeLength(a[0], QuoteRest(a[1..], s));
    }
    if b == "" {
      QuoteRestEnd(t);
    } else {
      QuoteRestStep(b, t);
      EscapeLength(b[0], QuoteRest(b[1..], t));
    }
    if a == "" && b == "" {
      SplitAt("\"", s, "\"", t);
    } else if a != "" && b != "" {
      SplitAt(Escape(a[0]), QuoteRest(a[1..], s), Escape(b[0]), QuoteRest(b[1..], t));
      EscapeInjective(a[0], b[0]);
      QuotedTail(a[1..], s, b[1..], t);
      assert a == [a[0]] + a[1..] && b == [b[0]] + b[1..];
    }
  }

  lemma QuoteIsRest(a: string, s: string)
    ensures Quote(a) + s == "\"" + QuoteRest(a, s)
  {
  }

  lemma QuotedUnambiguous(a: string, s: string, b: string, t: string)
    requires Quote(a) + s == Quote(b) + t
    ensures a == b && s == t
  {
    hide Quote, QuoteRest;
    QuoteIsRest(a, s);
    QuoteIsRest(b, t);
    SplitAt("\"", QuoteRest(a, s), "\"", QuoteRest(b, t));
    QuotedTail(a, s, b, t);
  }

  // Keys in order

  predicate IsLeast(keys: set<string>, k: string) {
    k in keys && forall x | x in keys :: x == k || Less(k, x)
  }

  lemma {:induction false} LeastExists(keys: set<string>)
    requires keys != {}
    ensures exists k :: IsLeast(keys, k)
    decreases |keys|
  {
    var k :| k in keys;
    var rest := keys - {k};
    assert forall x | x in keys :: x == k || x in rest;
    if rest == {} {
      assert IsLeast(keys, k);
    } else {
      LeastExists(rest);
      var least :| IsLeast(rest, least);
      LessTotal(k, least);
      if Less(k, least) {
        forall x | x in keys
          ensures x == k || Less(k, x)
        {
          if x != k && x != least {
            LessTransitive(k, least, x);
          }
        }
        assert IsLeast(keys, k);
      } else {
        assert IsLeast(keys, least);
      }
    }
  }

  ghost function Least(keys: set<string>): (k: string)
    requires keys != {}
    ensures IsLeast(keys, k)
  {
    LeastExists(keys);
    var k :| IsLeast(keys, k);
    k
  }

  ghost function SortedKeys(keys: set<string>): (s: seq<string>)
    ensures forall k :: k in s <==> k in keys
    decreases |keys|
  {
    if keys == {} then [] else [Least(keys)] + SortedKeys(keys - {Least(keys)})
  }

  // The writer

  ghost function Written(v: Value): string
    decreases v, 2, 0
  {
    match v
    case Null => "null"
    case Bool(flag) => if flag then "true" else "false"
    case Number(token) => token
    case Str(text) => Quote(text)
    case Array(items) => "[" + ItemsFrom(v, 0)
    case Object(members) => "{" + MembersFrom(v, SortedKeys(members.Keys), 0)
  }

  /** The items from the i-th on, a comma before each but the first of all, and the closing bracket. */
  ghost function ItemsFrom(v: Value, i: nat): string
    requires v.Array? && i <= |v.items|
    decreases v, 1, |v.items| - i
  {
    if i == |v.items| then "]"
    else (if i > 0 then "," else "") + (Written(v.items[i]) + ItemsFrom(v, i + 1))
  }

  ghost function MembersFrom(v: Value, keys: seq<string>, i: nat): string
    requires v.Object? && i <= |keys| && forall k | k in keys :: k in v.members
    decreases v, 1, |keys| - i
  {
    if i == |keys| then "}"
    else
      (if i > 0 then "," else "")
        + (Quote(keys[i]) + (":" + (Written(v.members[keys[i]]) + MembersFrom(v, keys, i + 1))))
  }

  // What follows a value in a text

  predicate Ends(s: string) {
    s == "" || s[0] == ',' || s[0] == ']' || s[0] == '}'
  }

  lemma {:induction false} TokenUnambiguous(a: string, s: string, b: string, t: string)
    requires forall i | 0 <= i < |a| :: NumberChar(a[i])
    requires forall i | 0 <= i < |b| :: NumberChar(b[i])
    requires Ends(s) && Ends(t) && a + s == b + t
    ensures a == b && s == t
  {
    var i := if |a| < |b| then |a| else |b|;
    if i < |a + s| {
      assert (a + s)[i] == (b + t)[i];
    }
    SplitAt(a, s, b, t);
  }

  // What is written determines the value

  /** The first character of a value's text shows which kind of value it is. */
  function Leads(v: Value, c: char): bool {
    match v
    case Null => c == 'n'
    case Bool(flag) => if flag then c == 't' else c == 'f'
    case Number(_) => '0' <= c <= '9' || c == '-'
    case Str(_) => c == '"'
    case Array(_) => c == '['
    case Object(_) => c == '{'
  }

  lemma WrittenLeads(v: Value, s: string)
    requires WellFormed(v)
    ensures Written(v) != "" && Leads(v, (Written(v) + s)[0])
  {
  }

  lemma SameKind(a: Value, b: Value, c: char)
    requires Leads(a, c) && Leads(b, c)
    ensures a.Null? == b.Null? && a.Bool? == b.Bool? && a.Number? == b.Number? && a.Str? == b.Str?
            && a.Array? == b.Array? && a.Object? == b.Object?
    ensures a.Bool? ==> a == b
  {
  }

  lemma {:induction false} WrittenUnambiguous(a: Value, s: string, b: Value, t: string)
    requires WellFormed(a) && WellFormed(b) && Ends(s) && Ends(t)
    requires Written(a) + s == Written(b) + t
    ensures a == b && s == t
    decreases a, 2, 0
  {
    hide Written, Leads, WellFormed;
    WrittenLeads(a, s);
    WrittenLeads(b, t);
    SameKind(a, b, (Written(a) + s)[0]);
    if a.Array? {
      ArrayText(a, s);
      ArrayText(b, t);
      SplitAt("[", ItemsFrom(a, 0) + s, "[", ItemsFrom(b, 0) + t);
      ItemsUnambiguous(a, 0, s, b, t);
      assert a.items[0..] == a.items && b.items[0..] == b.items;
    } else if a.Object? {
      var keys, keys' := SortedKeys(a.members.Keys), SortedKeys(b.members.Keys);
      ObjectText(a, s);
      ObjectText(b, t);
      SplitAt("{", MembersFrom(a, keys, 0) + s, "{", MembersFrom(b, keys', 0) + t);
      MembersUnambiguous(a, keys, 0, s, b, keys', t);
      SameMembers(a, b);
    } else {
      ScalarUnambiguous(a, s, b, t);
    }
  }

  lemma ArrayText(v: Value, s: string)
    requires v.Array?
    ensures Written(v) + s == "[" + (ItemsFrom(v, 0) + s)
  {
    hide ItemsFrom;
    Assoc("[", ItemsFrom(v, 0), s);
  }

  lemma ObjectText(v: Value, s: string)
    requires v.Object?
    ensures Written(v) + s == "{" + (MembersFrom(v, SortedKeys(v.members.Keys), 0) + s)
  {
    hide MembersFrom, SortedKeys;
    Assoc("{", MembersFrom(v, SortedKeys(v.members.Keys), 0), s);
  }

  lemma ScalarUnambiguous(a: Value, s: string, b: Value, t: string)
    requires WellFormed(a) && WellFormed(b) && Ends(s) && Ends(t) && !a.Array? && !a.Object?
    requires a.Null? == b.Null? && a.Bool? == b.Bool? && a.Number? == b.Number? && a.Str? == b.Str?
    requires a.Bool? ==> a == b
    requires Written(a) + s == Written(b) + t
    ensures a == b && s == t
  {
    hide Quote;
    match a
    case Null => SplitAt("null", s, "null", t);
    case Bool(flag) => SplitAt(Written(a), s, Written(b), t);
    case Number(token) => TokenUnambiguous(token, s, b.token, t);
    case Str(text) => QuotedUnambiguous(text, s, b.text, t);
  }

  lemma SameMembers(a: Value, b: Value)
    requires a.Object? && b.Object?
    requires SortedKeys(a.members.Keys) == SortedKeys(b.members.Keys)
    requires forall k | k in SortedKeys(a.members.Keys) :: k in b.members && a.members[k] == b.members[k]
    ensures a == b
  {
    forall k
      ensures k in a.members <==> k in b.members
    {
      assert k in SortedKeys(a.members.Keys) <==> k in a.members.Keys;
      assert k in SortedKeys(b.members.Keys) <==> k in b.members.Keys;
    }
    assert a.members == b.members;
  }

  lemma Assoc(a: string, b: string, c: string)
    ensures (a + b) + c == a + (b + c)
  {
  }

  /** The text of the items from the i-th on, split into the next item and the rest. */
  lemma ItemsStep(v: Value, i: nat, s: string)
    requires v.Array? && i < |v.items|
    ensures ItemsFrom(v, i) + s == (if i > 0 then "," else "") + (Written(v.items[i]) + (ItemsFrom(v, i + 1) + s))
  {
    hide Written;
    var comma, item, rest := if i > 0 then "," else "", Written(v.items[i]), ItemsFrom(v, i + 1);
    Assoc(comma, item + rest, s);
    Assoc(item, rest, s);
  }

  lemma ItemsRestEnds(v: Value, i: nat, s: string)
    requires v.Array? && 0 < i <= |v.items|
    ensures Ends(ItemsFrom(v, i) + s)
  {
    hide Written;
  }

  lemma ItemsEnd(v: Value, s: string)
    requires v.Array?
    ensures ItemsFrom(v, |v.items|) + s == "]" + s
  {
  }

  /** Before the first item there is no comma, so the closing bracket must not look like the start of an item. */
  lemma ItemsLead(v: Value, i: nat, s: string)
    requires v.Array? && WellFormed(v) && i <= |v.items|
    ensures (ItemsFrom(v, i) + s) != ""
    ensures (ItemsFrom(v, i) + s)[0] == ']' <==> i == |v.items|
  {
    if i < |v.items| {
      ItemsStep(v, i, s);
      WrittenLeads(v.items[i], ItemsFrom(v, i + 1) + s);
    } else {
      ItemsEnd(v, s);
    }
  }

  lemma {:induction false} ItemsUnambiguous(a: Value, i: nat, s: string, b: Value, t: string)
    requires a.Array? && b.Array? && WellFormed(a) && WellFormed(b) && Ends(s) && Ends(t)
    requires i <= |a.items| && i <= |b.items|
    requires ItemsFrom(a, i) + s == ItemsFrom(b, i) + t
    ensures a.items[i..] == b.items[i..] && s == t
    decreases a, 1, |a.items| - i
  {
    hide Written, ItemsFrom, Leads;
    ItemsLead(a, i, s);
    ItemsLead(b, i, t);
    if i == |a.items| {
      ItemsEnd(a, s);
      ItemsEnd(b, t);
      SplitAt("]", s, "]", t);
    } else {
      var comma := if i > 0 then "," else "";
      var x, y := ItemsFrom(a, i + 1) + s, ItemsFrom(b, i + 1) + t;
      ItemsStep(a, i, s);
      ItemsStep(b, i, t);
      ItemsRestEnds(a, i + 1, s);
      ItemsRestEnds(b, i + 1, t);
      SplitAt(comma, Written(a.items[i]) + x, comma, Written(b.items[i]) + y);
      WrittenUnambiguous(a.items[i], x, b.items[i], y);
      ItemsUnambiguous(a, i + 1, s, b, t);
      assert a.items[i..] == [a.items[i]] + a.items[i + 1..];
      assert b.items[i..] == [b.items[i]] + b.items[i + 1..];
    }
  }

  predicate KeysOf(v: Value, keys: seq<string>) {
    v.Object? && forall k | k in keys :: k in v.members
  }

  lemma MembersStep(v: Value, keys: seq<string>, i: nat, s: string)
    requires KeysOf(v, keys) && i < |keys|
    ensures MembersFrom(v, keys, i) + s
            == (if i > 0 then "," else "")
               + (Quote(keys[i]) + (":" + (Written(v.members[keys[i]]) + (MembersFrom(v, keys, i + 1) + s))))
  {
    hide Written, Quote;
    var comma, key := if i > 0 then "," else "", Quote(keys[i]);
    var member, rest := Written(v.members[keys[i]]), MembersFrom(v, keys, i + 1);
    Assoc(comma, key + (":" + (member + rest)), s);
    Assoc(key, ":" + (member + rest), s);
    Assoc(":", member + rest, s);
    Assoc(member, rest, s);
  }

  lemma MembersRestEnds(v: Value, keys: seq<string>, i: nat, s: string)
    requires KeysOf(v, keys) && 0 < i <= |keys|
    ensures Ends(MembersFrom(v, keys, i) + s)
  {
    hide Written, Quote;
  }

  lemma MembersEnd(v: Value, keys: seq<string>, s: string)
    requires KeysOf(v, keys)
    ensures MembersFrom(v, keys, |keys|) + s == "}" + s
  {
  }

  lemma MembersLead(v: Value, keys: seq<string>, i: nat, s: string)
    requires KeysOf(v, keys) && i <= |keys|
    ensures (MembersFrom(v, keys, i) + s) != ""
    ensures (MembersFrom(v, keys, i) + s)[0] == '}' <==> i == |keys|
  {
    if i < |keys| {
      MembersStep(v, keys, i, s);
    } else {
      MembersEnd(v, keys, s);
    }
  }

  lemma {:induction false} MembersUnambiguous(
    a: Value, keys: seq<string>, i: nat, s: string, b: Value, keys': seq<string>, t: string)
    requires KeysOf(a, keys) && KeysOf(b, keys') && WellFormed(a) && WellFormed(b) && Ends(s) && Ends(t)
    requires i <= |keys| && i <= |keys'| && keys[..i] == keys'[..i]
    requires MembersFrom(a, keys, i) + s == MembersFrom(b, keys', i) + t
    ensures keys == keys' && s == t
    ensures forall j | i <= j < |keys| :: keys[j] in b.members && a.members[keys[j]] == b.members[keys[j]]
    decreases a, 1, |keys| - i
  {
    hide Written, MembersFrom;
    MembersLead(a, keys, i, s);
    MembersLead(b, keys', i, t);
    if i == |keys| {
      MembersEnd(a, keys, s);
      MembersEnd(b, keys', t);
      SplitAt("}", s, "}", t);
      assert keys == keys[..i] && keys' == keys'[..i];
    } else {
      var comma := if i > 0 then "," else "";
      var x, y := MembersFrom(a, keys, i + 1) + s, MembersFrom(b, keys', i + 1) + t;
      var p, q := Written(a.members[keys[i]]) + x, Written(b.members[keys'[i]]) + y;
      MembersStep(a, keys, i, s);
      MembersStep(b, keys', i, t);
      MembersRestEnds(a, keys, i + 1, s);
      MembersRestEnds(b, keys', i + 1, t);
      SplitAt(comma, Quote(keys[i]) + (":" + p), comma, Quote(keys'[i]) + (":" + q));
      QuotedUnambiguous(keys[i], ":" + p, keys'[i], ":" + q);
      SplitAt(":", p, ":", q);
      WrittenUnambiguous(a.members[keys[i]], x, b.members[keys'[i]], y);
      assert keys[..i + 1] == keys[..i] + [keys[i]] && keys'[..i + 1] == keys'[..i] + [keys'[i]];
      MembersUnambiguous(a, keys, i + 1, s, b, keys', t);
    }
  }

  /** Two values have the same canonical text exactly when they are equal, objects being maps. */
  lemma CanonicalIsInjective(a: Value, b: Value)
    requires WellFormed(a) && WellFormed(b)
    ensures Written(a) == Written(b) <==> a == b
  {
    if Written(a) == Written(b) {
      assert Written(a) + "" == Written(b) + "";
      WrittenUnambiguous(a, "", b, "");
    }
  }

  // Fingerprints

  /** The text request_hash digests. */
  ghost function RequestText(endpoint: string, model: string, body: Value): string {
    Written(Object(map["endpoint" := Str(endpoint), "model" := Str(model), "body" := body]))
  }

  /** Two requests have the same fingerprint exactly when endpoint, model and body agree. */
  lemma FingerprintsAgree(endpoint: string, model: string, body: Value, endpoint': string, model': string, body': Value)
    requires WellFormed(body) && WellFormed(body')
    ensures RequestText(endpoint, model, body) == RequestText(endpoint', model', body')
            <==> endpoint == endpoint' && model == model' && body == body'
  {
    hide Written;
    var a := Object(map["endpoint" := Str(endpoint), "model" := Str(model), "body" := body]);
    var b := Object(map["endpoint" := Str(endpoint'), "model" := Str(model'), "body" := body']);
    CanonicalIsInjective(a, b);
    if a == b {
      assert a.members["endpoint"] == b.members["endpoint"];
      assert a.members["model"] == b.members["model"];
      assert a.members["body"] == b.members["body"];
    }
  }

  // write_canonical_json, which appends to a buffer

  class Output {
    var text: string

    constructor ()
      ensures text == ""
    {
      text := "";
    }

    method Push(s: string)
      modifies this
      ensures text == old(text) + s
    {
      text := text + s;
    }
  }

  lemma LeastUnique(keys: set<string>, a: string, b: string)
    requires IsLeast(keys, a) && IsLeast(keys, b)
    ensures a == b
  {
    if a != b {
      LessAsymmetric(a, b);
    }
  }

  /** The least of a set of keys, found by looking at each. */
  method FindLeast(keys: set<string>) returns (least: string)
    requires keys != {}
    ensures least == Least(keys)
  {
    var first :| first in keys;
    least := first;
    var pending := keys - {first};
    while pending != {}
      invariant pending <= keys
      invariant IsLeast(keys - pending, least)
      decreases pending
    {
      var k :| k in pending;
      LeastOfTwo(keys - pending, least, k);
      assert keys - (pending - {k}) == (keys - pending) + {k};
      if Less(k, least) {
        least := k;
      }
      pending := pending - {k};
    }
    assert keys - {} == keys;
    LeastUnique(keys, least, Least(keys));
  }

  lemma LeastOfTwo(keys: set<string>, least: string, k: string)
    requires IsLeast(keys, least) && k !in keys
    ensures IsLeast(keys + {k}, if Less(k, least) then k else least)
  {
    LessTotal(k, least);
    if Less(k, least) {
      forall x | x in keys && x != least
        ensures Less(k, x)
      {
        LessTransitive(k, least, x);
      }
    }
  }

  /** keys.sort_unstable() */
  method SortKeys(keys: set<string>) returns (sorted: seq<string>)
    ensures sorted == SortedKeys(keys)
  {
    sorted := [];
    var pending := keys;
    while pending != {}
      invariant SortedKeys(keys) == sorted + SortedKeys(pending)
      decreases |pending|
    {
      var least := FindLeast(pending);
      assert sorted + ([least] + SortedKeys(pending - {least})) == (sorted + [least]) + SortedKeys(pending - {least});
      sorted := sorted + [least];
      pending := pending - {least};
    }
  }

  lemma ItemWritten(v: Value, i: nat, before: string)
    requires v.Array? && i < |v.items|
    ensures before + ItemsFrom(v, i)
            == before + (if i > 0 then "," else "") + Written(v.items[i]) + ItemsFrom(v, i + 1)
  {
    hide Written;
    var comma, item, rest := if i > 0 then "," else "", Written(v.items[i]), ItemsFrom(v, i + 1);
    Assoc(before, comma, item + rest);
    Assoc(before + comma, item, rest);
  }

  lemma MemberWritten(v: Value, keys: seq<string>, i: nat, before: string)
    requires KeysOf(v, keys) && i < |keys|
    ensures before + MembersFrom(v, keys, i)
            == before + (if i > 0 then "," else "") + Quote(keys[i]) + ":" + Written(v.members[keys[i]])
               + MembersFrom(v, keys, i + 1)
  {
    hide Written, Quote;
    var comma, key := if i > 0 then "," else "", Quote(keys[i]);
    var member, rest := Written(v.members[keys[i]]), MembersFrom(v, keys, i + 1);
    Assoc(before, comma, key + (":" + (member + rest)));
    Assoc(before + comma, key, ":" + (member + rest));
    Assoc(before + comma + key, ":", member + rest);
    Assoc(before + comma + key + ":", member, rest);
  }

  method WriteItem(v: Value, i: nat, output: Output)
    requires v.Array? && i < |v.items|
    modifies output
    ensures output.text + ItemsFrom(v, i + 1) == old(output.text) + ItemsFrom(v, i)
    decreases v, 0
  {
    hide Written, ItemsFrom;
    ItemWritten(v, i, output.text);
    if i > 0 {
      output.Push(",");
    }
    WriteCanonicalJson(v.items[i], output);
  }

  method WriteMember(v: Value, keys: seq<string>, i: nat, output: Output)
    requires KeysOf(v, keys) && i < |keys|
    modifies output
    ensures output.text + MembersFrom(v, keys, i + 1) == old(output.text) + MembersFrom(v, keys, i)
    decreases v, 0
  {
    hide Written, MembersFrom, Quote;
    MemberWritten(v, keys, i, output.text);
    if i > 0 {
      output.Push(",");
    }
    output.Push(Quote(keys[i]));
    output.Push(":");
    WriteCanonicalJson(v.members[keys[i]], output);
  }

  lemma ArrayWritten(v: Value, before: string)
    requires v.Array?
    ensures before + Written(v) == before + "[" + ItemsFrom(v, 0)
    ensures ItemsFrom(v, |v.items|) == "]"
  {
    Assoc(before, "[", ItemsFrom(v, 0));
  }

  lemma ObjectWritten(v: Value, before: string)
    requires v.Object?
    ensures before + Written(v) == before + "{" + MembersFrom(v, SortedKeys(v.members.Keys), 0)
    ensures MembersFrom(v, SortedKeys(v.members.Keys), |SortedKeys(v.members.Keys)|) == "}"
  {
    Assoc(before, "{", MembersFrom(v, SortedKeys(v.members.Keys), 0));
  }

  /** The arm of write_canonical_json for arrays. */
  method WriteItems(v: Value, output: Output)
    requires v.Array?
    modifies output
    ensures output.text == old(output.text) + Written(v)
    decreases v, 1
  {
    hide Written, ItemsFrom;
    ghost var whole := output.text + Written(v);
    ArrayWritten(v, output.text);
    output.Push("[");
    for i := 0 to |v.items|
      invariant whole == output.text + ItemsFrom(v, i)
    {
      WriteItem(v, i, output);
    }
    output.Push("]");
  }

  /** The arm of write_canonical_json for objects. */
  method WriteMembers(v: Value, output: Output)
    requires v.Object?
    modifies output
    ensures output.text == old(output.text) + Written(v)
    decreases v, 1
  {
    hide Written, MembersFrom, SortedKeys;
    ghost var whole := output.text + Written(v);
    var keys := SortKeys(v.members.Keys);
    ObjectWritten(v, output.text);
    output.Push("{");
    for i := 0 to |keys|
      invariant whole == output.text + MembersFrom(v, keys, i)
    {
      WriteMember(v, keys, i, output);
    }
    output.Push("}");
  }

  method WriteCanonicalJson(v: Value, output: Output)
    modifies output
    ensures output.text == old(output.text) + Written(v)
    decreases v, 2
  {
    match v
    case Null => output.Push("null");
    case Bool(flag) => output.Push(if flag then "true" else "false");
    case Number(token) => output.Push(token);
    case Str(text) => output.Push(Quote(text));
    case Array(_) => WriteItems(v, output);
    case Object(_) => WriteMembers(v, output);
  }
}
