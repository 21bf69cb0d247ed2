/** The text tests that guard every public entry point: Rust's `str::trim` and SQLite's ordering of ids. */
module Text {

  /** The 25 code points of the Unicode White_Space property, which `str::trim` strips. */
  predicate IsWhitespace(c: char) {
    || '\U{0009}' <= c <= '\U{000D}'
    || c == ' '
    || c == '\U{0085}'
    || c == '\U{00A0}'
    || c == '\U{1680}'
    || '\U{2000}' <= c <= '\U{200A}'
    || c == '\U{2028}' || c == '\U{2029}'
    || c == '\U{202F}'
    || c == '\U{205F}'
    || c == '\U{3000}'
  }

  /** `value.trim().is_empty()` */
  predicate Blank(s: string) {
    forall i | 0 <= i < |s| :: IsWhitespace(s[i])
  }

  /** `value.trim()` */
  function Trim(s: string): (t: string)
    ensures Blank(s) <==> t == ""
  {
    if s == "" then ""
    else if IsWhitespace(s[0]) then Trim(s[1..])
    else if IsWhitespace(s[|s| - 1]) then Trim(s[..|s| - 1])
    else s
  }

  /** `value.len()`, in bytes. */
  function Utf8Length(s: string): nat {
    if s == "" then 0
    else (if s[0] < '\U{0080}' then 1 else if s[0] < '\U{0800}' then 2 else if s[0] < '\U{10000}' then 3 else 4)
         + Utf8Length(s[1..])
  }

  /** `char::is_control`: Unicode category Cc. */
  predicate IsControl(c: char) {
    c <= '\U{001F}' || '\U{007F}' <= c <= '\U{009F}'
  }

  /** The order of TEXT columns under SQLite's BINARY collation, which for UTF-8 is code point order. */
  predicate Less(a: string, b: string) {
    if b == [] then false
    else if a == [] then true
    else if a[0] != b[0] then a[0] < b[0]
    else Less(a[1..], b[1..])
  }

  lemma {:induction false} LessTotal(a: string, b: string)
    ensures a == b || Less(a, b) || Less(b, a)
  {
    if a != [] && b != [] && a[0] == b[0] {
      LessTotal(a[1..], b[1..]);
      if a[1..] == b[1..] {
        assert a == [a[0]] + a[1..];
        assert b == [b[0]] + b[1..];
      }
    }
  }

  lemma {:induction false} LessAsymmetric(a: string, b: string)
    requires Less(a, b)
    ensures a != b && !Less(b, a)
  {
    if a != [] && a[0] == b[0] {
      LessAsymmetric(a[1..], b[1..]);
    }
  }

  lemma {:induction false} LessTransitive(a: string, b: string, c: string)
    requires Less(a, b) && Less(b, c)
    ensures Less(a, c)
  {
    if a != [] && a[0] == b[0] == c[0] {
      LessTransitive(a[1..], b[1..], c[1..]);
    }
  }

  /** Of two different strings the lesser one is a prefix of the other, or has the smaller character where they part. */
  lemma {:induction false} LessIff(a: string, b: string)
    ensures Less(a, b) <==>
              exists i: nat ::
                && i <= |a| && i < |b| && a[..i] == b[..i]
                && (i == |a| || a[i] < b[i])
  {
    if a == [] {
      if b != [] {
        assert a[..0] == b[..0];
      }
    } else if b != [] && a[0] != b[0] {
      assert a[..0] == b[..0];
      forall i: nat | 0 < i <= |a| && i < |b|
        ensures a[..i] != b[..i]
      {
        assert a[..i][0] == a[0] && b[..i][0] == b[0];
      }
    } else if b != [] {
      LessIff(a[1..], b[1..]);
      if Less(a, b) {
        var i: nat :| i <= |a[1..]| && i < |b[1..]| && a[1..][..i] == b[1..][..i] && (i == |a[1..]| || a[1..][i] < b[1..][i]);
        assert a[..i + 1] == [a[0]] + a[1..][..i] && b[..i + 1] == [b[0]] + b[1..][..i];
      }
      if i: nat :| i <= |a| && i < |b| && a[..i] == b[..i] && (i == |a| || a[i] < b[i]) {
        assert i > 0;
        assert a[1..][..i - 1] == a[..i][1..] && b[1..][..i - 1] == b[..i][1..];
      }
    }
  }

  lemma BlankAppend(a: string, b: string)
    requires Blank(a) && Blank(b)
    ensures Blank(a + b)
  {
    hide IsWhitespace;
  }

  /** What is left after trimming is what stands between white space, and neither begins nor ends with any. */
  lemma {:induction false} TrimmedBetween(s: string) returns (before: string, after: string)
    ensures s == before + Trim(s) + after && Blank(before) && Blank(after)
    ensures Trim(s) != "" ==> !IsWhitespace(Trim(s)[0]) && !IsWhitespace(Trim(s)[|Trim(s)| - 1])
  {
    hide IsWhitespace, Blank;
    BlankNothing();
    before, after := "", "";
    if s != "" && IsWhitespace(s[0]) {
      before, after := TrimmedBetween(s[1..]);
      BlankOne(s[0]);
      BlankAppend([s[0]], before);
      assert s == [s[0]] + s[1..];
      before := [s[0]] + before;
    } else if s != "" && IsWhitespace(s[|s| - 1]) {
      var last := [s[|s| - 1]];
      before, after := TrimmedBetween(s[..|s| - 1]);
      BlankOne(last[0]);
      BlankAppend(after, last);
      assert s == s[..|s| - 1] + last;
      after := after + last;
    }
  }

  lemma BlankNothing()
    ensures Blank("")
  {
  }

  lemma BlankOne(c: char)
    requires IsWhitespace(c)
    ensures Blank([c])
  {
    hide IsWhitespace;
  }
}
