/**
  A reader of JSON texts without insignificant white space, written from the grammar of RFC 8259 and from nothing
  in the writer: what the canonical writer writes, this reader reads back, and the members of every object in the
  text stand in ascending order. A number is the longest run of characters a number may hold.
 */
module JsonReader {
  import opened Text
  import Canonical = CanonicalJson

  /** A text's own structure: the members of an object in the order in which they stand there. */
  datatype Tree =
    | Null
    | True
    | False
    | Number(token: string)
    | Text(text: string)
    | Items(items: seq<Tree>)
    | Members(members: seq<Member>)

  datatype Member = Member(name: string, value: Tree)

  datatype Parsed<T> = Malformed | Parsed(value: T, rest: string)

  // String literals, section 7

  function HexValue(c: char): (n: int)
    ensures -1 <= n < 16
  {
    if '0' <= c <= '9' then c as int - '0' as int
    else if 'a' <= c <= 'f' then c as int - 'a' as int + 10
    else if 'A' <= c <= 'F' then c as int - 'A' as int + 10
    else -1
  }

  /** The character of the Basic Multilingual Plane that four hexadecimal digits name; half of a surrogate pair is none. */
  function ReadUnicode(s: string): (r: Parsed<char>)
    ensures r.Parsed? ==> |r.rest| < |s|
  {
    if |s| < 4 || exists i | 0 <= i < 4 :: HexValue(s[i]) < 0 then Malformed
    else
      var code := 4096 * HexValue(s[0]) + 256 * HexValue(s[1]) + 16 * HexValue(s[2]) + HexValue(s[3]);
      if 0xD800 <= code < 0xE000 then Malformed else Parsed(code as char, s[4..])
  }

  /** The character that a backslash and what follows it stand for. */
  function ReadEscape(s: string): (r: Parsed<char>)
    ensures r.Parsed? ==> |r.rest| < |s|
  {
    if s == "" then Malformed
    else
      match s[0]
      case '"' => Parsed('"', s[1..])
      case '\\' => Parsed('\\', s[1..])
      case '/' => Parsed('/', s[1..])
      case 'b' => Parsed('\U{0008}', s[1..])
      case 'f' => Parsed('\U{000C}', s[1..])
      case 'n' => Parsed('\U{000A}', s[1..])
      case 'r' => Parsed('\U{000D}', s[1..])
      case 't' => Parsed('\U{0009}', s[1..])
      case 'u' => ReadUnicode(s[1..])
      case _ => Malformed
  }

  function ReadChar(s: string): (r: Parsed<char>)
    ensures r.Parsed? ==> |r.rest| < |s|
  {
    if s == "" || s[0] < '\U{0020}' || s[0] == '"' then Malformed
    else if s[0] == '\\' then ReadEscape(s[1..])
    else Parsed(s[0], s[1..])
  }

  /** The characters up to the closing quotation mark. */
  function ReadChars(s: string): (r: Parsed<string>)
    ensures r.Parsed? ==> |r.rest| < |s|
    decreases |s|
  {
    if s != "" && s[0] == '"' then Parsed("", s[1..])
    else
      var c := ReadChar(s);
      if c.Malformed? then Malformed
      else
        var more := ReadChars(c.rest);
        if more.Malformed? then Malformed else Parsed([c.value] + more.value, more.rest)
  }

  // Values, sections 3 to 6

  function ReadNumber(s: string): (r: Parsed<string>)
    ensures r.Parsed? && r.value + r.rest == s
  {
    if s == "" || !Canonical.NumberChar(s[0]) then Parsed("", s)
    else
      var more := ReadNumber(s[1..]);
      Parsed([s[0]] + more.value, more.rest)
  }

  function ReadWord(word: string, value: Tree, s: string): (r: Parsed<Tree>)
    requires word != ""
    ensures r.Parsed? ==> |r.rest| < |s|
  {
    if word <= s then Parsed(value, s[|word|..]) else Malformed
  }

  function ReadValue(s: string): (r: Parsed<Tree>)
    ensures r.Parsed? ==> |r.rest| < |s|
    decreases |s|, 0
  {
    if s == "" then Malformed
    else if s[0] == '"' then
      var text := ReadChars(s[1..]);
      if text.Malformed? then Malformed else Parsed(Text(text.value), text.rest)
    else if s[0] == '[' then
      if |s| > 1 && s[1] == ']' then Parsed(Items([]), s[2..])
      else
        var items := ReadItems(s[1..]);
        if items.Malformed? then Malformed else Parsed(Items(items.value), items.rest)
    else if s[0] == '{' then
      if |s| > 1 && s[1] == '}' then Parsed(Members([]), s[2..])
      else
        var members := ReadMembers(s[1..]);
        if members.Malformed? then Malformed else Parsed(Members(members.value), members.rest)
    else if '0' <= s[0] <= '9' || s[0] == '-' then
      var token := ReadNumber(s);
      Parsed(Number(token.value), token.rest)
    else if s[0] == 'n' then ReadWord("null", Null, s)
    else if s[0] == 't' then ReadWord("true", True, s)
    else ReadWord("false", False, s)
  }

  /** One value or more, between commas, and the closing bracket. */
  function ReadItems(s: string): (r: Parsed<seq<Tree>>)
    ensures r.Parsed? ==> |r.rest| < |s|
    decreases |s|, 1
  {
    var item := ReadValue(s);
    if item.Malformed? || item.rest == "" then Malformed
    else if item.rest[0] == ']' then Parsed([item.value], item.rest[1..])
    else if item.rest[0] == ',' then
      var more := ReadItems(item.rest[1..]);
      if more.Malformed? then Malformed else Parsed([item.value] + more.value, more.rest)
    else Malformed
  }

  function ReadMember(s: string): (r: Parsed<Member>)
    ensures r.Parsed? ==> |r.rest| < |s|
    decreases |s|, 1
  {
    if s == "" || s[0] != '"' then Malformed
    else
      var name := ReadChars(s[1..]);
      if name.Malformed? || name.rest == "" || name.rest[0] != ':' then Malformed
      else
        var value := ReadValue(name.rest[1..]);
        if value.Malformed? then Malformed else Parsed(Member(name.value, value.value), value.rest)
  }

  function ReadMembers(s: string): (r: Parsed<seq<Member>>)
    ensures r.Parsed? ==> |r.rest| < |s|
    decreases |s|, 2
  {
    var member := ReadMember(s);
    if member.Malformed? || member.rest == "" then Malformed
    else if member.rest[0] == '}' then Parsed([member.value], member.rest[1..])
    else if member.rest[0] == ',' then
      var more := ReadMembers(member.rest[1..]);
      if more.Malformed? then Malformed else Parsed([member.value] + more.value, more.rest)
    else Malformed
  }

  // What a text means, and the order of its members

  function Meaning(t: Tree): Canonical.Value
    decreases t, 1, 0
  {
    match t
    case Null => Canonical.Null
    case True => Canonical.Bool(true)
    case False => Canonical.Bool(false)
    case Number(token) => Canonical.Number(token)
    case Text(text) => Canonical.Str(text)
    case Items(items) => Canonical.Array(seq(|items|, i requires 0 <= i < |items| => Meaning(items[i])))
    case Members(members) => Canonical.Object(MeaningOfFirst(t, |members|))
  }

  /** The object of the first n members; of two members of one name the later one counts. */
  function MeaningOfFirst(t: Tree, n: nat): map<string, Canonical.Value>
    requires t.Members? && n <= |t.members|
    decreases t, 0, n
  {
    if n == 0 then map[]
    else MeaningOfFirst(t, n - 1)[t.members[n - 1].name := Meaning(t.members[n - 1].value)]
  }

  /** In every object, at whatever depth, each member's name is less than the next one's, so none stands twice. */
  predicate Ascending(t: Tree) {
    match t
    case Items(items) => forall i | 0 <= i < |items| :: Ascending(items[i])
    case Members(members) =>
      && (forall i | 0 <= i < |members| :: Ascending(members[i].value))
      && (forall i, j | 0 <= i < j < |members| :: Less(members[i].name, members[j].name))
    case _ => true
  }

  // Literals are read back

  lemma HexIsRead(n: nat)
    requires n < 16
    ensures HexValue(Canonical.HexDigit(n)) == n
  {
  }

  lemma EscapeIsRead(c: char, rest: string)
    ensures var s := Canonical.Escape(c) + rest;
            s != "" && s[0] != '"' && ReadChar(s) == Parsed(c, rest)
  {
    var escape := Canonical.Escape(c);
    var s := escape + rest;
    if |escape| == 6 {
      HexIsRead(c as int / 16);
      HexIsRead(c as int % 16);
      var digits := s[1..][1..];
      assert digits[0] == '0' && digits[1] == '0';
      assert digits[2] == Canonical.HexDigit(c as int / 16) && digits[3] == Canonical.HexDigit(c as int % 16);
      assert 16 * (c as int / 16) + c as int % 16 == c as int;
      assert digits[4..] == rest;
    } else if |escape| == 2 {
      assert s[1..][1..] == rest;
    } else {
      assert s[1..] == rest;
    }
  }

  lemma {:induction false} CharsAreRead(text: string, rest: string)
    ensures ReadChars(Canonical.QuoteRest(text, rest)) == Parsed(text, rest)
  {
    hide Canonical.QuoteRest, Canonical.Escape, ReadChar;
    if text == "" {
      Canonical.QuoteRestEnd(rest);
      assert ("\"" + rest)[1..] == rest;
    } else {
      var more := Canonical.QuoteRest(text[1..], rest);
      Canonical.QuoteRestStep(text, rest);
      EscapeIsRead(text[0], more);
      CharsAreRead(text[1..], rest);
      assert [text[0]] + text[1..] == text;
    }
  }

  lemma QuoteIsRead(text: string, rest: string)
    ensures var s := Canonical.Quote(text) + rest;
            s != "" && s[0] == '"' && ReadChars(s[1..]) == Parsed(text, rest)
  {
    hide Canonical.Quote, Canonical.QuoteRest, ReadChars;
    Canonical.QuoteIsRest(text, rest);
    assert ("\"" + Canonical.QuoteRest(text, rest))[1..] == Canonical.QuoteRest(text, rest);
    CharsAreRead(text, rest);
  }

  lemma {:induction false} NumberIsRead(token: string, rest: string)
    requires forall i | 0 <= i < |token| :: Canonical.NumberChar(token[i])
    requires Canonical.Ends(rest)
    ensures ReadNumber(token + rest) == Parsed(token, rest)
  {
    if token == "" {
      assert token + rest == rest;
    } else {
      assert (token + rest)[1..] == token[1..] + rest;
      NumberIsRead(token[1..], rest);
      assert [token[0]] + token[1..] == token;
    }
  }

  lemma WordIsRead(word: string, value: Tree, rest: string)
    requires word != ""
    ensures ReadWord(word, value, word + rest) == Parsed(value, rest)
  {
    assert (word + rest)[|word|..] == rest;
  }

  // Values are read back

  lemma ScalarIsRead(v: Canonical.Value, rest: string) returns (t: Tree)
    requires Canonical.WellFormed(v) && Canonical.Ends(rest) && !v.Array? && !v.Object?
    ensures ReadValue(Canonical.Written(v) + rest) == Parsed(t, rest)
    ensures Meaning(t) == v && Ascending(t)
  {
    hide Canonical.Quote, ReadChars, ReadNumber, ReadWord;
    var s := Canonical.Written(v) + rest;
    match v
    case Null =>
      WordIsRead("null", Null, rest);
      t := Null;
    case Bool(flag) =>
      WordIsRead(if flag then "true" else "false", if flag then True else False, rest);
      t := if flag then True else False;
    case Number(token) =>
      NumberIsRead(token, rest);
      t := Number(token);
    case Str(text) =>
      QuoteIsRead(text, rest);
      t := Text(text);
  }

  lemma {:induction false} ValueIsRead(v: Canonical.Value, rest: string) returns (t: Tree)
    requires Canonical.WellFormed(v) && Canonical.Ends(rest)
    ensures ReadValue(Canonical.Written(v) + rest) == Parsed(t, rest)
    ensures Meaning(t) == v && Ascending(t)
    decreases v, 2, 0
  {
    if v.Array? {
      t := ArrayIsRead(v, rest);
    } else if v.Object? {
      t := ObjectIsRead(v, rest);
    } else {
      t := ScalarIsRead(v, rest);
    }
  }

  lemma ListIsRead(body: string)
    requires body != ""
    ensures ReadValue("[" + body)
            == if body[0] == ']' then Parsed(Items([]), body[1..])
               else if ReadItems(body).Malformed? then Malformed
               else Parsed(Items(ReadItems(body).value), ReadItems(body).rest)
  {
    hide ReadItems;
    assert ("[" + body)[1..] == body && ("[" + body)[2..] == body[1..];
  }

  lemma RecordIsRead(body: string)
    requires body != ""
    ensures ReadValue("{" + body)
            == if body[0] == '}' then Parsed(Members([]), body[1..])
               else if ReadMembers(body).Malformed? then Malformed
               else Parsed(Members(ReadMembers(body).value), ReadMembers(body).rest)
  {
    hide ReadMembers;
    assert ("{" + body)[1..] == body && ("{" + body)[2..] == body[1..];
  }

  lemma {:induction false} ArrayIsRead(v: Canonical.Value, rest: string) returns (t: Tree)
    requires Canonical.WellFormed(v) && Canonical.Ends(rest) && v.Array?
    ensures ReadValue(Canonical.Written(v) + rest) == Parsed(t, rest)
    ensures Meaning(t) == v && Ascending(t)
    decreases v, 1, |v.items| + 1
  {
    hide Canonical.Written, Canonical.ItemsFrom, Canonical.Leads, ReadItems, ReadValue;
    var body := Canonical.ItemsFrom(v, 0) + rest;
    Canonical.ArrayText(v, rest);
    Canonical.ItemsLead(v, 0, rest);
    ListIsRead(body);
    if v.items == [] {
      Canonical.ItemsEnd(v, rest);
      assert body[1..] == rest;
      t := Items([]);
      assert Meaning(t).items == v.items;
    } else {
      Canonical.ItemsStep(v, 0, rest);
      assert body == Canonical.Written(v.items[0]) + (Canonical.ItemsFrom(v, 1) + rest);
      var trees := ItemsAreRead(v, 0, rest);
      t := Items(trees);
      assert Meaning(t).items == v.items;
    }
  }

  lemma {:induction false} ItemsAreRead(v: Canonical.Value, i: nat, rest: string) returns (ts: seq<Tree>)
    requires Canonical.WellFormed(v) && v.Array? && i < |v.items| && Canonical.Ends(rest)
    ensures ReadItems(Canonical.Written(v.items[i]) + (Canonical.ItemsFrom(v, i + 1) + rest)) == Parsed(ts, rest)
    ensures |ts| == |v.items| - i
    ensures forall j | 0 <= j < |ts| :: Meaning(ts[j]) == v.items[i + j] && Ascending(ts[j])
    decreases v, 1, |v.items| - i
  {
    hide Canonical.Written, Canonical.ItemsFrom, Canonical.Leads, ReadValue, Meaning, Ascending;
    var more := Canonical.ItemsFrom(v, i + 1) + rest;
    Canonical.ItemsRestEnds(v, i + 1, rest);
    Canonical.ItemsLead(v, i + 1, rest);
    var first := ValueIsRead(v.items[i], more);
    if i + 1 == |v.items| {
      Canonical.ItemsEnd(v, rest);
      assert more[1..] == rest;
      ts := [first];
    } else {
      Canonical.ItemsStep(v, i + 1, rest);
      var others := ItemsAreRead(v, i + 1, rest);
      assert more[1..] == Canonical.Written(v.items[i + 1]) + (Canonical.ItemsFrom(v, i + 2) + rest);
      ts := [first] + others;
    }
  }

  lemma {:induction false} KeysAscend(keys: set<string>)
    ensures forall i, j | 0 <= i < j < |Canonical.SortedKeys(keys)| ::
              Less(Canonical.SortedKeys(keys)[i], Canonical.SortedKeys(keys)[j])
    decreases |keys|
  {
    hide Less;
    if keys != {} {
      var least := Canonical.Least(keys);
      var others := Canonical.SortedKeys(keys - {least});
      KeysAscend(keys - {least});
      assert Canonical.SortedKeys(keys) == [least] + others;
      forall j | 0 <= j < |others|
        ensures Less(least, others[j])
      {
        assert others[j] in others;
      }
    }
  }

  lemma {:induction false} MeaningOfNames(t: Tree, n: nat)
    requires t.Members? && n <= |t.members|
    requires forall i, j | 0 <= i < j < |t.members| :: t.members[i].name != t.members[j].name
    ensures forall k :: k in MeaningOfFirst(t, n) <==> exists i :: 0 <= i < n && t.members[i].name == k
    ensures forall i | 0 <= i < n :: MeaningOfFirst(t, n)[t.members[i].name] == Meaning(t.members[i].value)
  {
    hide Meaning;
    if n > 0 {
      MeaningOfNames(t, n - 1);
    }
  }

  /** The members read for the sorted keys of an object are that object. */
  lemma MembersMean(v: Canonical.Value, keys: seq<string>, t: Tree)
    requires v.Object? && t.Members? && |t.members| == |keys| && keys == Canonical.SortedKeys(v.members.Keys)
    requires forall i | 0 <= i < |keys| ::
               && t.members[i].name == keys[i] && keys[i] in v.members
               && Meaning(t.members[i].value) == v.members[keys[i]] && Ascending(t.members[i].value)
    ensures Meaning(t) == v && Ascending(t)
  {
    hide Canonical.SortedKeys, Less, MeaningOfFirst;
    KeysAscend(v.members.Keys);
    forall i, j | 0 <= i < j < |t.members|
      ensures t.members[i].name != t.members[j].name
    {
      LessAsymmetric(keys[i], keys[j]);
    }
    MeaningOfNames(t, |t.members|);
    var read := MeaningOfFirst(t, |t.members|);
    forall k
      ensures k in read <==> k in v.members
    {
      assert k in keys <==> k in v.members.Keys;
    }
    assert read == v.members;
  }

  lemma {:induction false} ObjectIsRead(v: Canonical.Value, rest: string) returns (t: Tree)
    requires Canonical.WellFormed(v) && Canonical.Ends(rest) && v.Object?
    ensures ReadValue(Canonical.Written(v) + rest) == Parsed(t, rest)
    ensures Meaning(t) == v && Ascending(t)
    decreases v, 1, |Canonical.SortedKeys(v.members.Keys)| + 2
  {
    hide Canonical.Written, Canonical.WellFormed, Canonical.MembersFrom, Canonical.SortedKeys, Canonical.Quote,
         Canonical.Ends, ReadMembers, ReadValue, Meaning, Ascending;
    var keys := Canonical.SortedKeys(v.members.Keys);
    Canonical.ObjectText(v, rest);
    Canonical.MembersLead(v, keys, 0, rest);
    RecordIsRead(Canonical.MembersFrom(v, keys, 0) + rest);
    if keys == [] {
      Canonical.MembersEnd(v, keys, rest);
      assert ("}" + rest)[1..] == rest;
      t := Members([]);
    } else {
      var members := RecordMembersAreRead(v, keys, rest);
      t := Members(members);
    }
    MembersMean(v, keys, t);
  }

  lemma {:induction false} RecordMembersAreRead(v: Canonical.Value, keys: seq<string>, rest: string) returns (ms: seq<Member>)
    requires Canonical.WellFormed(v) && Canonical.KeysOf(v, keys) && keys != [] && Canonical.Ends(rest)
    ensures ReadMembers(Canonical.MembersFrom(v, keys, 0) + rest) == Parsed(ms, rest)
    ensures |ms| == |keys|
    ensures forall j | 0 <= j < |ms| ::
              && ms[j].name == keys[j] && Meaning(ms[j].value) == v.members[keys[j]] && Ascending(ms[j].value)
    decreases v, 1, |keys| + 1
  {
    hide Canonical.Written, Canonical.MembersFrom, Canonical.Quote, ReadMembers, Meaning, Ascending;
    Canonical.MembersStep(v, keys, 0, rest);
    ms := MembersAreRead(v, keys, 0, rest);
    var text := Canonical.Quote(keys[0])
                + (":" + (Canonical.Written(v.members[keys[0]]) + (Canonical.MembersFrom(v, keys, 1) + rest)));
    assert Canonical.MembersFrom(v, keys, 0) + rest == text;
  }

  lemma {:induction false} MembersAreRead(v: Canonical.Value, keys: seq<string>, i: nat, rest: string) returns (ms: seq<Member>)
    requires Canonical.WellFormed(v) && Canonical.KeysOf(v, keys) && i < |keys| && Canonical.Ends(rest)
    ensures ReadMembers(Canonical.Quote(keys[i])
                        + (":" + (Canonical.Written(v.members[keys[i]]) + (Canonical.MembersFrom(v, keys, i + 1) + rest))))
            == Parsed(ms, rest)
    ensures |ms| == |keys| - i
    ensures forall j | 0 <= j < |ms| ::
              && ms[j].name == keys[i + j] && Meaning(ms[j].value) == v.members[keys[i + j]] && Ascending(ms[j].value)
    decreases v, 1, |keys| - i
  {
    hide Canonical.Written, Canonical.MembersFrom, Canonical.Quote, ReadMember, Meaning, Ascending;
    var more := Canonical.MembersFrom(v, keys, i + 1) + rest;
    Canonical.MembersRestEnds(v, keys, i + 1, rest);
    Canonical.MembersLead(v, keys, i + 1, rest);
    var first := MemberIsRead(v, keys[i], more);
    if i + 1 == |keys| {
      Canonical.MembersEnd(v, keys, rest);
      assert more[1..] == rest;
      ms := [first];
    } else {
      Canonical.MembersStep(v, keys, i + 1, rest);
      var others := MembersAreRead(v, keys, i + 1, rest);
      var next := keys[i + 1];
      assert more[1..] == Canonical.Quote(next)
                          + (":" + (Canonical.Written(v.members[next]) + (Canonical.MembersFrom(v, keys, i + 2) + rest)));
      ms := [first] + others;
    }
  }

  lemma {:induction false} MemberIsRead(v: Canonical.Value, key: string, more: string) returns (m: Member)
    requires Canonical.WellFormed(v) && v.Object? && key in v.members && Canonical.Ends(more)
    ensures ReadMember(Canonical.Quote(key) + (":" + (Canonical.Written(v.members[key]) + more))) == Parsed(m, more)
    ensures m.name == key && Meaning(m.value) == v.members[key] && Ascending(m.value)
    decreases v, 0, 0
  {
    hide Canonical.Written, Canonical.Quote, ReadValue, ReadChars, Meaning, Ascending;
    var text := Canonical.Written(v.members[key]) + more;
    QuoteIsRead(key, ":" + text);
    assert (":" + text)[1..] == text;
    var value := ValueIsRead(v.members[key], more);
    m := Member(key, value);
  }

  /** A canonical text reads back as the value it was written for, its objects in ascending order of their names. */
  lemma CanonicalIsRead(v: Canonical.Value) returns (t: Tree)
    requires Canonical.WellFormed(v)
    ensures ReadValue(Canonical.Written(v)) == Parsed(t, "")
    ensures Meaning(t) == v && Ascending(t)
  {
    hide Canonical.Written, ReadValue, Meaning, Ascending;
    t := ValueIsRead(v, "");
    assert Canonical.Written(v) + "" == Canonical.Written(v);
  }
}
