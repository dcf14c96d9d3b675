/** The extractor of the `apiSchema` array from the Proxmox API viewer source: a bracket scanner that knows
    strings. It is proved to invert every rendering of a JSON array that RFC 8259 allows. */
module ApidocScanner {
  import opened Wrappers

  const MARKER := "const apiSchema ="

  // ---------------------------------------------------------------- the scanner

  datatype Scan = Scan(depth: int, inString: bool, escaped: bool)

  /** The character closes the outermost bracket. */
  predicate Closes(st: Scan, c: char) { !st.inString && c == ']' && st.depth == 1 }

  function Next(st: Scan, c: char): Scan {
    if st.inString then
      if st.escaped then st.(escaped := false)
      else if c == '\\' then st.(escaped := true)
      else if c == '"' then st.(inString := false)
      else st
    else if c == '"' then st.(inString := true)
    else if c == '[' then st.(depth := st.depth + 1)
    else if c == ']' then st.(depth := st.depth - 1)
    else st
  }

  /** The index of the closing bracket, scanning from `i`. */
  function EndFrom(s: string, i: nat, st: Scan): (r: Option<nat>)
    requires i <= |s|
    ensures r.Some? ==> i <= r.value < |s|
    decreases |s| - i
  {
    if i == |s| then None
    else if Closes(st, s[i]) then Some(i)
    else EndFrom(s, i + 1, Next(st, s[i]))
  }

  predicate OccursAt(s: string, text: string, k: nat) { k + |text| <= |s| && s[k..k + |text|] == text }

  /** The first place at or after `i` where the text occurs. */
  function FindFrom(s: string, text: string, i: nat): (r: Option<nat>)
    requires i <= |s|
    ensures r.Some? ==> i <= r.value && OccursAt(s, text, r.value)
    ensures forall k: nat :: i <= k && OccursAt(s, text, k) ==> r.Some? && r.value <= k
    decreases |s| - i
  {
    if OccursAt(s, text, i) then Some(i)
    else if i == |s| then None
    else FindFrom(s, text, i + 1)
  }

  datatype Error = NoMarker | NoArray | Unbalanced

  function Extract(s: string): Result<string, Error> {
    var marker := FindFrom(s, MARKER, 0);
    if marker.None? then Err(NoMarker) else
    var start := FindFrom(s, "[", marker.value);
    if start.None? then Err(NoArray) else
    var end := EndFrom(s, start.value, Scan(0, false, false));
    if end.None? then Err(Unbalanced) else Ok(s[start.value..end.value + 1])
  }

  /** The scanner loop. */
  method ExtractSchemaText(s: string) returns (r: Result<string, Error>)
    ensures r == Extract(s)
  {
    var marker := FindFrom(s, MARKER, 0);
    if marker.None? { return Err(NoMarker); }
    var start := FindFrom(s, "[", marker.value);
    if start.None? { return Err(NoArray); }
    var depth, inString, escaped, i := 0, false, false, start.value;
    while i < |s|
      invariant start.value <= i <= |s|
      invariant EndFrom(s, i, Scan(depth, inString, escaped)) == EndFrom(s, start.value, Scan(0, false, false))
    {
      var c := s[i];
      if inString {
        if escaped {
          escaped := false;
        } else if c == '\\' {
          escaped := true;
        } else if c == '"' {
          inString := false;
        }
      } else if c == '"' {
        inString := true;
      } else if c == '[' {
        depth := depth + 1;
      } else if c == ']' {
        depth := depth - 1;
        if depth == 0 { return Ok(s[start.value..i + 1]); }
      }
      i := i + 1;
    }
    return Err(Unbalanced);
  }

  // ---------------------------------------------------------------- scanning a piece of text

  /** The state after a text, unless the outermost bracket closes within it. */
  function Feed(st: Scan, text: string): Option<Scan>
    decreases |text|
  {
    if text == "" then Some(st)
    else if Closes(st, text[0]) then None
    else Feed(Next(st, text[0]), text[1..])
  }

  lemma {:induction false} FeedAppend(st: Scan, a: string, b: string)
    ensures Feed(st, a + b) == if Feed(st, a).Some? then Feed(Feed(st, a).value, b) else None
    decreases |a|
  {
    if a == "" {
      assert a + b == b;
    } else {
      assert (a + b)[1..] == a[1..] + b;
      FeedAppend(Next(st, a[0]), a[1..], b);
    }
  }

  /** Scanning on past a text that does not close the bracket. */
  lemma {:induction false} EndSkips(s: string, i: nat, text: string, st: Scan)
    requires i + |text| <= |s| && s[i..i + |text|] == text && Feed(st, text).Some?
    ensures EndFrom(s, i, st) == EndFrom(s, i + |text|, Feed(st, text).value)
    decreases |text|
  {
    if text != "" {
      assert s[i] == text[0];
      assert s[i + 1..i + |text|] == text[1..];
      EndSkips(s, i + 1, text[1..], Next(st, text[0]));
    }
  }

  /** Outside strings, inside `d` brackets. */
  function Out(d: int): Scan { Scan(d, false, false) }

  predicate Quiet(text: string) { forall i :: 0 <= i < |text| ==> text[i] != '"' && text[i] != '[' && text[i] != ']' }

  lemma {:induction false} QuietStays(text: string, d: int)
    requires Quiet(text)
    ensures Feed(Out(d), text) == Some(Out(d))
  {
    if text != "" { QuietStays(text[1..], d); }
  }

  // ---------------------------------------------------------------- JSON texts

  /** A character of a JSON string: itself, an escape of two characters, or a \\u escape. */
  datatype Piece = Plain(c: char) | Escape(c: char) | Unicode(hex: string)

  /** A value with white space around it. */
  datatype Padded = Padded(before: string, value: Value, after: string)

  datatype Member = Member(before: string, name: seq<Piece>, after: string, content: Padded)

  /** A JSON text, with the white space it is written with. */
  datatype Value =
    | Word(text: string)
    | Number(text: string)
    | String(pieces: seq<Piece>)
    | Array(blank: string, items: seq<Padded>)
    | Object(blank: string, members: seq<Member>)

  predicate IsBlank(s: string) {
    forall i :: 0 <= i < |s| ==> s[i] == ' ' || s[i] == '\t' || s[i] == '\n' || s[i] == '\r'
  }

  predicate IsHex(c: char) { '0' <= c <= '9' || 'a' <= c <= 'f' || 'A' <= c <= 'F' }

  predicate PieceOk(p: Piece) {
    match p
    case Plain(c) => c >= ' ' && c != '"' && c != '\\'
    case Escape(c) => c in ['"', '\\', '/', 'b', 'f', 'n', 'r', 't']
    case Unicode(hex) => |hex| == 4 && forall i :: 0 <= i < 4 ==> IsHex(hex[i])
  }

  predicate PiecesOk(pieces: seq<Piece>) { forall i :: 0 <= i < |pieces| ==> PieceOk(pieces[i]) }

  predicate NumberOk(text: string) {
    text != "" && forall i :: 0 <= i < |text| ==> '0' <= text[i] <= '9' || text[i] in ['+', '-', '.', 'e', 'E']
  }

  predicate PaddedOk(p: Padded) { IsBlank(p.before) && IsBlank(p.after) && ValueOk(p.value) }

  predicate MemberOk(m: Member) { IsBlank(m.before) && IsBlank(m.after) && PiecesOk(m.name) && PaddedOk(m.content) }

  predicate ValueOk(v: Value) {
    match v
    case Word(text) => text == "null" || text == "true" || text == "false"
    case Number(text) => NumberOk(text)
    case String(pieces) => PiecesOk(pieces)
    case Array(blank, items) => IsBlank(blank) && forall i :: 0 <= i < |items| ==> PaddedOk(items[i])
    case Object(blank, members) => IsBlank(blank) && forall i :: 0 <= i < |members| ==> MemberOk(members[i])
  }

  function PrintPiece(p: Piece): string {
    match p
    case Plain(c) => [c]
    case Escape(c) => ['\\', c]
    case Unicode(hex) => "\\u" + hex
  }

  function PrintPieces(pieces: seq<Piece>): string {
    if pieces == [] then "" else PrintPiece(pieces[0]) + PrintPieces(pieces[1..])
  }

  function PrintString(pieces: seq<Piece>): string { "\"" + PrintPieces(pieces) + "\"" }

  function PrintPadded(p: Padded): string
    decreases p, 0
  {
    p.before + Print(p.value) + p.after
  }

  function PrintItems(items: seq<Padded>): string
    decreases items, 0
  {
    if items == [] then ""
    else PrintPadded(items[0]) + (if |items| == 1 then "" else "," + PrintItems(items[1..]))
  }

  function PrintMember(m: Member): string
    decreases m, 0
  {
    m.before + PrintString(m.name) + m.after + ":" + PrintPadded(m.content)
  }

  function PrintMembers(members: seq<Member>): string
    decreases members, 0
  {
    if members == [] then ""
    else PrintMember(members[0]) + (if |members| == 1 then "" else "," + PrintMembers(members[1..]))
  }

  function Print(v: Value): string
    decreases v, 0
  {
    match v
    case Word(text) => text
    case Number(text) => text
    case String(pieces) => PrintString(pieces)
    case Array(blank, items) => "[" + blank + PrintItems(items) + "]"
    case Object(blank, members) => "{" + blank + PrintMembers(members) + "}"
  }

  // ---------------------------------------------------------------- the scanner over JSON texts

  /** A text after which the scanner is where it was, at any depth inside the array. */
  ghost predicate Restores(text: string) { forall d :: d >= 1 ==> Feed(Out(d), text) == Some(Out(d)) }

  lemma RestoresQuiet(text: string)
    requires Quiet(text)
    ensures Restores(text)
  {
    forall d | d >= 1 ensures Feed(Out(d), text) == Some(Out(d)) { QuietStays(text, d); }
  }

  lemma RestoresJoin(a: string, b: string)
    requires Restores(a) && Restores(b)
    ensures Restores(a + b)
  {
    forall d | d >= 1 ensures Feed(Out(d), a + b) == Some(Out(d)) { FeedAppend(Out(d), a, b); }
  }

  /** One piece of a string leaves the scanner inside the string: an escaped quote does not end it, nor does a
      quote after an escaped backslash get lost. */
  lemma PieceStays(p: Piece, d: int)
    requires PieceOk(p)
    ensures Feed(Scan(d, true, false), PrintPiece(p)) == Some(Scan(d, true, false))
  {
    var inside := Scan(d, true, false);
    match p
    case Plain(c) => assert [c][1..] == "";
    case Escape(c) =>
      var text := ['\\', c];
      assert text[1..] == [c] && [c][1..] == "";
      assert Feed(inside, text) == Feed(Scan(d, true, true), [c]) == Feed(inside, "");
    case Unicode(hex) =>
      FeedAppend(inside, "\\u", hex);
      assert "\\u"[1..] == "u" && "u"[1..] == "";
      PlainStays(hex, d);
  }

  lemma {:induction false} PlainStays(text: string, d: int)
    requires forall i :: 0 <= i < |text| ==> text[i] != '"' && text[i] != '\\'
    ensures Feed(Scan(d, true, false), text) == Some(Scan(d, true, false))
  {
    if text != "" { PlainStays(text[1..], d); }
  }

  lemma {:induction false} PiecesStay(pieces: seq<Piece>, d: int)
    requires PiecesOk(pieces)
    ensures Feed(Scan(d, true, false), PrintPieces(pieces)) == Some(Scan(d, true, false))
  {
    if pieces != [] {
      PieceStays(pieces[0], d);
      FeedAppend(Scan(d, true, false), PrintPiece(pieces[0]), PrintPieces(pieces[1..]));
      PiecesStay(pieces[1..], d);
    }
  }

  lemma StringRestores(pieces: seq<Piece>)
    requires PiecesOk(pieces)
    ensures Restores(PrintString(pieces))
  {
    forall d | d >= 1 ensures Feed(Out(d), PrintString(pieces)) == Some(Out(d)) {
      PiecesStay(pieces, d);
      FeedAppend(Out(d), "\"", PrintPieces(pieces) + "\"");
      FeedAppend(Scan(d, true, false), PrintPieces(pieces), "\"");
      assert PrintString(pieces) == "\"" + (PrintPieces(pieces) + "\"");
      assert Feed(Out(d), "\"") == Feed(Scan(d, true, false), "");
      assert Feed(Scan(d, true, false), "\"") == Feed(Out(d), "");
    }
  }

  /** Inside brackets of its own, a text that restores the scanner still does. */
  lemma BracketsRestore(body: string)
    requires Restores(body)
    ensures Restores("[" + body + "]")
  {
    forall d | d >= 1 ensures Feed(Out(d), "[" + body + "]") == Some(Out(d)) {
      assert "[" + body + "]" == "[" + (body + "]");
      FeedAppend(Out(d), "[", body + "]");
      assert Feed(Out(d), "[") == Feed(Out(d + 1), "");
      FeedAppend(Out(d + 1), body, "]");
      assert Feed(Out(d + 1), "]") == Feed(Out(d), "");
    }
  }

  lemma {:induction false} PaddedRestores(p: Padded)
    requires PaddedOk(p)
    ensures Restores(PrintPadded(p))
    decreases p, 0
  {
    ValueRestores(p.value);
    RestoresQuiet(p.before);
    RestoresQuiet(p.after);
    RestoresJoin(p.before, Print(p.value));
    RestoresJoin(p.before + Print(p.value), p.after);
  }

  lemma {:induction false} ItemsRestore(items: seq<Padded>)
    requires forall i :: 0 <= i < |items| ==> PaddedOk(items[i])
    ensures Restores(PrintItems(items))
    decreases items, 0
  {
    if items == [] {
      RestoresQuiet("");
    } else {
      PaddedRestores(items[0]);
      if |items| == 1 {
        RestoresQuiet("");
        RestoresJoin(PrintPadded(items[0]), "");
      } else {
        ItemsRestore(items[1..]);
        RestoresQuiet(",");
        RestoresJoin(",", PrintItems(items[1..]));
        RestoresJoin(PrintPadded(items[0]), "," + PrintItems(items[1..]));
      }
    }
  }

  lemma {:induction false} MemberRestores(m: Member)
    requires MemberOk(m)
    ensures Restores(PrintMember(m))
    decreases m, 0
  {
    PaddedRestores(m.content);
    StringRestores(m.name);
    RestoresQuiet(m.before);
    RestoresQuiet(m.after);
    RestoresQuiet(":");
    RestoresJoin(m.before, PrintString(m.name));
    RestoresJoin(m.before + PrintString(m.name), m.after);
    RestoresJoin(m.before + PrintString(m.name) + m.after, ":");
    RestoresJoin(m.before + PrintString(m.name) + m.after + ":", PrintPadded(m.content));
  }

  lemma {:induction false} MembersRestore(members: seq<Member>)
    requires forall i :: 0 <= i < |members| ==> MemberOk(members[i])
    ensures Restores(PrintMembers(members))
    decreases members, 0
  {
    if members == [] {
      RestoresQuiet("");
    } else {
      MemberRestores(members[0]);
      if |members| == 1 {
        RestoresQuiet("");
        RestoresJoin(PrintMember(members[0]), "");
      } else {
        MembersRestore(members[1..]);
        RestoresQuiet(",");
        RestoresJoin(",", PrintMembers(members[1..]));
        RestoresJoin(PrintMember(members[0]), "," + PrintMembers(members[1..]));
      }
    }
  }

  lemma {:induction false} ValueRestores(v: Value)
    requires ValueOk(v)
    ensures Restores(Print(v))
    decreases v, 0
  {
    match v
    case Word(text) => RestoresQuiet(text);
    case Number(text) => RestoresQuiet(text);
    case String(pieces) => StringRestores(pieces);
    case Array(blank, items) =>
      BodyRestores(blank, items);
      BracketsRestore(blank + PrintItems(items));
      assert Print(v) == "[" + (blank + PrintItems(items)) + "]";
    case Object(blank, members) =>
      RestoresQuiet("{" + blank);
      MembersRestore(members);
      RestoresQuiet("}");
      RestoresJoin("{" + blank, PrintMembers(members));
      RestoresJoin("{" + blank + PrintMembers(members), "}");
  }

  lemma {:induction false} BodyRestores(blank: string, items: seq<Padded>)
    requires IsBlank(blank) && forall i :: 0 <= i < |items| ==> PaddedOk(items[i])
    ensures Restores(blank + PrintItems(items))
    decreases items, 1
  {
    RestoresQuiet(blank);
    ItemsRestore(items);
    RestoresJoin(blank, PrintItems(items));
  }

  // ---------------------------------------------------------------- the extractor inverts printing

  lemma {:induction false} FirstBracket(s: string, i: nat, k: nat)
    requires i <= k < |s| && s[k] == '[' && forall j :: i <= j < k ==> s[j] != '['
    ensures FindFrom(s, "[", i) == Some(k)
    decreases k - i
  {
    assert s[i..i + 1] == [s[i]];
    if i < k { FirstBracket(s, i + 1, k); }
  }

  lemma Slices(s: string, i: nat, j: nat, a: nat, b: nat)
    requires i <= j <= |s| && a <= b <= j - i
    ensures s[i..j][a..b] == s[i + a..i + b]
  {
    var left, right := s[i..j][a..b], s[i + a..i + b];
    assert forall k :: 0 <= k < b - a ==> left[k] == s[i..j][a + k] == s[i + (a + k)];
    assert forall k :: 0 <= k < b - a ==> right[k] == s[i + a + k];
  }

  /** The end of a printed array, wherever it stands. */
  lemma {:induction false} EndOfArray(s: string, i: nat, v: Value)
    requires v.Array? && ValueOk(v)
    requires i + |Print(v)| <= |s| && s[i..i + |Print(v)|] == Print(v)
    ensures EndFrom(s, i, Out(0)) == Some(i + |Print(v)| - 1)
  {
    var body, text := v.blank + PrintItems(v.items), Print(v);
    BodyRestores(v.blank, v.items);
    assert text == "[" + body + "]";
    var shown := s[i..i + |text|];
    assert s[i] == shown[0] == '[';
    Slices(s, i, i + |text|, 1, 1 + |body|);
    assert shown[1..1 + |body|] == body;
    assert Feed(Out(1), body) == Some(Out(1));
    EndSkips(s, i + 1, body, Out(1));
    var last := i + 1 + |body|;
    assert s[last] == shown[1 + |body|] == ']';
    assert EndFrom(s, i, Out(0)) == EndFrom(s, i + 1, Out(1));
  }

  /** For every JSON array and every way of writing it: when the marker first occurs before it, with no bracket
      in between, the extractor returns exactly the array's text, whatever follows. */
  lemma {:induction false} ExtractInvertsPrint(before: string, gap: string, v: Value, rest: string)
    requires v.Array? && ValueOk(v)
    requires FindFrom(before + "const apiSchema =" + gap + Print(v) + rest, "const apiSchema =", 0) == Some(|before|)
    requires forall i :: 0 <= i < |gap| ==> gap[i] != '['
    ensures Extract(before + "const apiSchema =" + gap + Print(v) + rest) == Ok(Print(v))
  {
    var s := before + MARKER + gap + Print(v) + rest;
    var start := |before| + |MARKER| + |gap|;
    assert s[start..start + |Print(v)|] == Print(v);
    assert Print(v)[0] == '[';
    forall j | |before| <= j < start
      ensures s[j] != '['
    {
      if j < |before| + |MARKER| {
        assert s[j] == MARKER[j - |before|];
      } else {
        assert s[j] == gap[j - |before| - |MARKER|];
      }
    }
    FirstBracket(s, |before|, start);
    EndOfArray(s, start, v);
  }

  lemma {:induction false} EndIsFirstBalance(s: string, i: nat, st: Scan)
    requires i <= |s| && EndFrom(s, i, st).Some?
    ensures var end := EndFrom(s, i, st).value;
      Feed(st, s[i..end]).Some? && Closes(Feed(st, s[i..end]).value, s[end])
    decreases |s| - i
  {
    if Closes(st, s[i]) {
      assert s[i..i] == "";
    } else {
      EndIsFirstBalance(s, i + 1, Next(st, s[i]));
      var end := EndFrom(s, i, st).value;
      assert s[i..end][0] == s[i] && s[i..end][1..] == s[i + 1..end];
    }
  }

  /** Whatever the source: an extracted text starts at the first bracket after the first marker, ends with the
      bracket that closes it, and closes nowhere earlier. */
  lemma ExtractedIsBalanced(s: string)
    requires Extract(s).Ok?
    ensures var text := Extract(s).value; var n := |text| - 1;
      && n >= 1 && text[0] == '[' && text[n] == ']'
      && Feed(Out(0), text[..n]).Some? && Closes(Feed(Out(0), text[..n]).value, text[n])
  {
    var start := FindFrom(s, "[", FindFrom(s, MARKER, 0).value).value;
    var end := EndFrom(s, start, Out(0)).value;
    EndIsFirstBalance(s, start, Out(0));
    var text := s[start..end + 1];
    Slices(s, start, end + 1, 0, end - start);
    assert text[..|text| - 1] == text[0..end - start];
    assert s[start] == '[' by { assert s[start..start + 1][0] == '['; }
  }

  /** When nothing is returned: no marker, no bracket after the first marker, or no bracket that closes it. */
  lemma {:induction false} ExtractFails(s: string)
    ensures Extract(s) == Err(NoMarker) <==> forall k: nat :: !OccursAt(s, "const apiSchema =", k)
    ensures Extract(s) == Err(NoArray) <==>
      && FindFrom(s, "const apiSchema =", 0).Some?
      && forall k: nat :: FindFrom(s, "const apiSchema =", 0).value <= k ==> !OccursAt(s, "[", k)
  {
  }
}
