/** The text form of profile files: escaping of strings, and the splitting of a line into key, type and value. */
module ConfigText {
  import opened Options

  // ----- escaping

  /** Replaces every occurrence of one character. */
  function Replace(s: string, c: char, sub: string): string {
    if s == [] then [] else (if s[0] == c then sub else [s[0]]) + Replace(s[1..], c, sub)
  }

  /** The four replacements in their order: the backslash first. */
  function EscapeString(s: string): string {
    Replace(Replace(Replace(Replace(s, '\\', "\\\\"), '\t', "\\t"), '\r', "\\r"), '\n', "\\n")
  }

  function EscapeChar(c: char): string {
    if c == '\\' then "\\\\" else if c == '\t' then "\\t" else if c == '\r' then "\\r" else if c == '\n' then "\\n"
    else [c]
  }

  function EscapeEach(s: string): string {
    if s == [] then [] else EscapeChar(s[0]) + EscapeEach(s[1..])
  }

  /** The character that a backslash and c stand for, if they stand for one. */
  function Unescaped(c: char): Option<char> {
    if c == '\\' then Some('\\') else if c == 't' then Some('\t') else if c == 'r' then Some('\r')
    else if c == 'n' then Some('\n') else None
  }

  function Unescape(s: string): string {
    if s == [] then []
    else if s[0] == '\\' && |s| > 1 && Unescaped(s[1]).Some? then [Unescaped(s[1]).value] + Unescape(s[2..])
    else [s[0]] + Unescape(s[1..])
  }

  /** The character that unescaping yields at position i, and how many characters it stands for. */
  function Decoded(s: string, i: nat): (char, nat)
    requires i < |s|
  {
    if s[i] == '\\' && i < |s| - 1 && Unescaped(s[i + 1]).Some? then (Unescaped(s[i + 1]).value, 2) else (s[i], 1)
  }

  lemma UnescapeAt(s: string, i: nat)
    requires i < |s|
    ensures i + Decoded(s, i).1 <= |s|
    ensures Unescape(s[i..]) == [Decoded(s, i).0] + Unescape(s[i + Decoded(s, i).1..])
  {
    assert s[i..][1..] == s[i + 1..];
    if i < |s| - 1 {
      assert s[i..][2..] == s[i + 2..];
    }
  }

  lemma AppendAssoc(d: string, c: char, rest: string)
    ensures d + ([c] + rest) == (d + [c]) + rest
  {
  }

  /** The loop over the index that skips the second character of an escape. */
  method UnescapeString(s: string) returns (d: string)
    ensures d == Unescape(s)
  {
    d := [];
    var i := 0;
    while i < |s|
      invariant 0 <= i <= |s| && d + Unescape(s[i..]) == Unescape(s)
    {
      UnescapeAt(s, i);
      AppendAssoc(d, Decoded(s, i).0, Unescape(s[i + Decoded(s, i).1..]));
      var c, n := DecodeAt(s, i);
      d := d + [c];
      i := i + n;
    }
  }

  method DecodeAt(s: string, i: nat) returns (c: char, n: nat)
    requires i < |s|
    ensures (c, n) == Decoded(s, i)
  {
    c, n := s[i], 1;
    if c == '\\' && i < |s| - 1 {
      match s[i + 1] {
        case '\\' => n := 2;
        case 't' => c, n := '\t', 2;
        case 'r' => c, n := '\r', 2;
        case 'n' => c, n := '\n', 2;
        case _ =>
      }
    }
  }

  lemma {:induction false} ReplaceAppend(s: string, t: string, c: char, sub: string)
    ensures Replace(s + t, c, sub) == Replace(s, c, sub) + Replace(t, c, sub)
  {
    if s == [] {
      assert s + t == t;
    } else {
      assert (s + t)[1..] == s[1..] + t;
      ReplaceAppend(s[1..], t, c, sub);
    }
  }

  lemma ReplaceOne(x: char, c: char, sub: string)
    ensures Replace([x], c, sub) == if x == c then sub else [x]
  {
    assert [x][1..] == [];
  }

  lemma ReplaceTwo(x: char, y: char, c: char, sub: string)
    requires x != c && y != c
    ensures Replace([x, y], c, sub) == [x, y]
  {
    assert [x, y][1..] == [y];
    ReplaceOne(y, c, sub);
  }

  lemma EscapeOne(x: char)
    ensures EscapeString([x]) == EscapeChar(x)
  {
    ReplaceOne(x, '\\', "\\\\");
    ReplaceOne(x, '\t', "\\t");
    ReplaceOne(x, '\r', "\\r");
    ReplaceOne(x, '\n', "\\n");
    ReplaceTwo('\\', '\\', '\t', "\\t");
    ReplaceTwo('\\', '\\', '\r', "\\r");
    ReplaceTwo('\\', '\\', '\n', "\\n");
    ReplaceTwo('\\', 't', '\r', "\\r");
    ReplaceTwo('\\', 't', '\n', "\\n");
    ReplaceTwo('\\', 'r', '\n', "\\n");
  }

  lemma EscapeAppend(s: string, t: string)
    ensures EscapeString(s + t) == EscapeString(s) + EscapeString(t)
  {
    var s1, t1 := Replace(s, '\\', "\\\\"), Replace(t, '\\', "\\\\");
    var s2, t2 := Replace(s1, '\t', "\\t"), Replace(t1, '\t', "\\t");
    var s3, t3 := Replace(s2, '\r', "\\r"), Replace(t2, '\r', "\\r");
    ReplaceAppend(s, t, '\\', "\\\\");
    ReplaceAppend(s1, t1, '\t', "\\t");
    ReplaceAppend(s2, t2, '\r', "\\r");
    ReplaceAppend(s3, t3, '\n', "\\n");
  }

  /** The four replacements one after the other are one replacement character by character. */
  lemma {:induction false} EscapeIsPerCharacter(s: string)
    ensures EscapeString(s) == EscapeEach(s)
  {
    if s == [] {
    } else {
      EscapeIsPerCharacter(s[1..]);
      EscapeAppend([s[0]], s[1..]);
      EscapeOne(s[0]);
      assert [s[0]] + s[1..] == s;
    }
  }

  lemma UnescapeOne(x: char, rest: string)
    ensures Unescape(EscapeChar(x) + rest) == [x] + Unescape(rest)
  {
    var e := EscapeChar(x);
    assert (e + rest)[0] == e[0] && (e + rest)[|e|..] == rest;
  }

  lemma {:induction false} UnescapeEach(s: string)
    ensures Unescape(EscapeEach(s)) == s
  {
    if s == [] {
    } else {
      UnescapeEach(s[1..]);
      UnescapeOne(s[0], EscapeEach(s[1..]));
    }
  }

  /** Unescaping gives back every escaped string. */
  lemma UnescapeEscape(s: string)
    ensures Unescape(EscapeString(s)) == s
  {
    EscapeIsPerCharacter(s);
    UnescapeEach(s);
  }

  /** The escapes of the file format. */
  lemma EscapesNamed(c: char)
    ensures EscapeString("\\") == "\\\\" && EscapeString("\t") == "\\t"
    ensures EscapeString("\r") == "\\r" && EscapeString("\n") == "\\n"
    ensures c !in {'\\', '\t', '\r', '\n'} ==> EscapeString([c]) == [c]
  {
    hide EscapeString;
    EscapeOne('\\');
    EscapeOne('\t');
    EscapeOne('\r');
    EscapeOne('\n');
    EscapeOne(c);
  }

  /** A backslash before any other character, or at the end, stands for itself. */
  lemma StrayBackslash(c: char, rest: string)
    requires c !in {'\\', 't', 'r', 'n'}
    ensures Unescape("\\" + [c] + rest) == "\\" + [c] + Unescape(rest)
    ensures Unescape("\\") == "\\"
  {
    var s := "\\" + [c] + rest;
    assert s[1..] == [c] + rest && ([c] + rest)[1..] == rest;
    assert "\\"[1..] == "";
  }

  predicate IsDelimiter(c: char) {
    c == '\t' || c == '\r' || c == '\n'
  }

  ghost predicate Clean(s: string) {
    forall i :: 0 <= i < |s| ==> !IsDelimiter(s[i])
  }

  lemma {:induction false} EscapedClean(s: string)
    ensures Clean(EscapeString(s))
  {
    EscapeIsPerCharacter(s);
    if s == [] {
    } else {
      EscapedClean(s[1..]);
      EscapeIsPerCharacter(s[1..]);
    }
  }

  // ----- tokens

  /** Position of the first delimiter, or the length. */
  function FirstDelimiter(s: string): (k: nat)
    ensures k <= |s| && Clean(s[..k])
    ensures k < |s| ==> IsDelimiter(s[k])
  {
    if s == [] || IsDelimiter(s[0]) then 0 else 1 + FirstDelimiter(s[1..])
  }

  /** Whether there is anything but delimiters left. */
  predicate HasMoreTokens(s: string) {
    exists i :: 0 <= i < |s| && !IsDelimiter(s[i])
  }

  /** The next token, empty ones skipped, and the text after the delimiter that ends it. */
  function NextToken(s: string): (string, string) {
    if !HasMoreTokens(s) then ([], s)
    else
      var k := FirstDelimiter(s);
      if k == |s| then (s, [])
      else if k == 0 then NextToken(s[1..])
      else (s[..k], s[k + 1..])
  }

  /** White space other than the delimiters: space, vertical tab, form feed. */
  predicate IsBlank(c: char) {
    c == ' ' || c == '\U{000B}' || c == '\U{000C}'
  }

  predicate IsSpace(c: char) {
    IsBlank(c) || IsDelimiter(c)
  }

  function TrimRight(s: string): (r: string)
    ensures r <= s
    ensures r != [] ==> !IsSpace(r[|r| - 1])
    ensures r == s <==> s == [] || !IsSpace(s[|s| - 1])
  {
    if s != [] && IsSpace(s[|s| - 1]) then TrimRight(s[..|s| - 1]) else s
  }

  datatype Parsed = Parsed(name: string, typestr: string, val: string)

  function ParseLine(s: string): Option<Parsed> {
    if s == [] then None
    else
      var (name, rest) := NextToken(s);
      var (typestr, rest2) := NextToken(rest);
      Some(Parsed(name, typestr, TrimRight(rest2)))
  }

  /** A line as it is written, without the line end that the stream takes off when reading. */
  function WrittenLine(key: string, typestr: string, sval: string): string {
    key + "\t" + typestr + "\t" + sval
  }

  lemma {:induction false} FirstDelimiterAfter(a: string, b: string)
    requires Clean(a)
    ensures FirstDelimiter(a + "\t" + b) == |a|
  {
    if a == [] {
      assert (a + "\t" + b)[0] == '\t';
    } else {
      assert (a + "\t" + b)[1..] == a[1..] + "\t" + b;
      FirstDelimiterAfter(a[1..], b);
    }
  }

  lemma TokenBeforeTab(a: string, b: string)
    requires a != [] && Clean(a)
    ensures NextToken(a + "\t" + b) == (a, b)
  {
    var s := a + "\t" + b;
    assert s[0] == a[0] && HasMoreTokens(s);
    FirstDelimiterAfter(a, b);
    assert s[..|a|] == a && s[|a| + 1..] == b;
  }

  lemma ParseWritten(key: string, typestr: string, sval: string)
    requires key != [] && Clean(key) && typestr != [] && Clean(typestr)
    ensures ParseLine(WrittenLine(key, typestr, sval)) == Some(Parsed(key, typestr, TrimRight(sval)))
  {
    var rest := typestr + "\t" + sval;
    assert WrittenLine(key, typestr, sval) == key + "\t" + rest;
    TokenBeforeTab(key, rest);
    TokenBeforeTab(typestr, sval);
  }

  /** The last character of an escaped string is white space exactly when the string ends in a blank. */
  lemma {:induction false} EscapedEnd(v: string)
    requires v != []
    ensures var e := EscapeEach(v); e != [] && (IsSpace(e[|e| - 1]) <==> IsBlank(v[|v| - 1]))
  {
    if |v| > 1 {
      EscapedEnd(v[1..]);
    } else {
      assert v[1..] == [];
    }
  }

  function TrimBlanks(v: string): (r: string)
    ensures |r| <= |v|
    ensures r == v <==> v == [] || !IsBlank(v[|v| - 1])
  {
    if v != [] && IsBlank(v[|v| - 1]) then TrimBlanks(v[..|v| - 1]) else v
  }

  lemma EscapeSnoc(v: string, c: char)
    ensures EscapeEach(v + [c]) == EscapeEach(v) + EscapeChar(c)
  {
    EscapeIsPerCharacter(v + [c]);
    EscapeIsPerCharacter(v);
    EscapeAppend(v, [c]);
    EscapeOne(c);
  }

  lemma EscapeBlank(v: string, c: char)
    requires IsBlank(c)
    ensures TrimRight(EscapeEach(v + [c])) == TrimRight(EscapeEach(v))
  {
    EscapeSnoc(v, c);
    BlankEscape(c);
    TrimOne(EscapeEach(v), c);
  }

  lemma BlankEscape(c: char)
    requires IsBlank(c)
    ensures EscapeChar(c) == [c] && IsSpace(c)
  {
  }

  /** Trimming the escaped text takes off exactly the blanks at the end of the string. */
  lemma {:induction false} TrimEscaped(v: string)
    ensures TrimRight(EscapeEach(v)) == EscapeEach(TrimBlanks(v))
  {
    if v == [] {
    } else {
      var w, c := v[..|v| - 1], v[|v| - 1];
      if IsBlank(c) {
        assert v == w + [c];
        EscapeBlank(w, c);
        TrimEscaped(w);
      } else {
        EscapedEnd(v);
      }
    }
  }

  lemma TrimOne(e: string, c: char)
    requires IsSpace(c)
    ensures TrimRight(e + [c]) == TrimRight(e)
  {
    assert (e + [c])[..|e|] == e;
  }

  /**
   A string value written to a profile file is read back without the blanks at its end; tabs and line ends there
   survive, because they are escaped. So it is unchanged exactly when it does not end in a blank.
   */
  lemma ValueReadBack(key: string, typestr: string, v: string)
    requires key != [] && Clean(key) && typestr != [] && Clean(typestr)
    ensures var p := ParseLine(WrittenLine(key, typestr, EscapeString(v)));
            && p.Some? && p.value.name == key && p.value.typestr == typestr
            && Unescape(p.value.val) == TrimBlanks(v)
            && (Unescape(p.value.val) == v <==> v == [] || !IsBlank(v[|v| - 1]))
  {
    ParseWritten(key, typestr, EscapeString(v));
    EscapeIsPerCharacter(v);
    TrimEscaped(v);
    UnescapeEach(TrimBlanks(v));
  }
}
