/** The pieces of Go's `strings`, `bufio` and `fmt` packages that the input parsers
    and the argument builders rely on, written out so that their behaviour on
    white space, blank lines and line endings is part of the model.

    Byte slices are modelled as strings whose characters stand for bytes. The
    white space here is the six ASCII white-space bytes; Go's `unicode.IsSpace`
    also matches the multi-byte UTF-8 encodings of U+0085, U+00A0, U+1680,
    U+2000 to U+200A, U+2028, U+2029, U+202F, U+205F and U+3000, which this
    model treats as ordinary bytes. */
module Text {

  predicate IsSpace(c: char) {
    c == ' ' || c == '\t' || c == '\n' || c == '\U{000B}' || c == '\U{000C}' || c == '\r'
  }

  predicate NoSpace(s: string) {
    forall k :: 0 <= k < |s| ==> !IsSpace(s[k])
  }

  predicate AllSpace(s: string) {
    forall k :: 0 <= k < |s| ==> IsSpace(s[k])
  }

  /** A non-empty run of non-space characters, as strings.Fields returns them. */
  predicate IsField(w: string) {
    w != [] && NoSpace(w)
  }

  /** `s` with its leading white space removed. */
  function TrimLeft(s: string): (r: string)
    ensures r == [] || !IsSpace(r[0])
  {
    if s != [] && IsSpace(s[0]) then TrimLeft(s[1..]) else s
  }

  /** `s` with its trailing white space removed. */
  function TrimRight(s: string): (r: string)
    ensures r == [] || !IsSpace(r[|r| - 1])
  {
    if s != [] && IsSpace(s[|s| - 1]) then TrimRight(s[..|s| - 1]) else s
  }

  /** strings.TrimSpace: the text between the first and the last non-space character. */
  function TrimSpace(s: string): (r: string)
    ensures r == [] || (!IsSpace(r[0]) && !IsSpace(r[|r| - 1]))
  {
    var t := TrimLeft(s);
    var r := TrimRight(t);
    TrimRightPrefix(t);
    assert r != [] ==> r[0] == t[0];
    r
  }

  /** TrimLeft removes a prefix. */
  lemma {:induction false} TrimLeftSuffix(s: string)
    ensures |TrimLeft(s)| <= |s| && TrimLeft(s) == s[|s| - |TrimLeft(s)|..]
  {
    if s != [] && IsSpace(s[0]) {
      TrimLeftSuffix(s[1..]);
    }
  }

  /** TrimRight removes a suffix. */
  lemma {:induction false} TrimRightPrefix(s: string)
    ensures |TrimRight(s)| <= |s| && TrimRight(s) == s[..|TrimRight(s)|]
  {
    if s != [] && IsSpace(s[|s| - 1]) {
      TrimRightPrefix(s[..|s| - 1]);
    }
  }

  /** The longest prefix of `s` that holds no white space. */
  function Word(s: string): (w: string)
    ensures w <= s && NoSpace(w)
    ensures |w| == |s| || IsSpace(s[|w|])
    ensures s != [] && !IsSpace(s[0]) ==> w != []
  {
    if s == [] || IsSpace(s[0]) then [] else [s[0]] + Word(s[1..])
  }

  /** strings.Fields: the maximal runs of non-space characters of `s`, in order. */
  function Fields(s: string): seq<string>
    decreases |s|
  {
    if s == [] then []
    else if IsSpace(s[0]) then Fields(s[1..])
    else
      var w := Word(s);
      [w] + Fields(s[|w|..])
  }

  /** strings.Join */
  function Join(ws: seq<string>, sep: string): string {
    if ws == [] then ""
    else if |ws| == 1 then ws[0]
    else ws[0] + sep + Join(ws[1..], sep)
  }

  /** strings.Contains */
  predicate Contains(s: string, sub: string)
    decreases |s|
  {
    sub <= s || (s != [] && Contains(s[1..], sub))
  }

  /** Index of the first newline of `s`, or |s| when there is none. */
  function NewlineAt(s: string): (i: nat)
    ensures i <= |s| && (i < |s| ==> s[i] == '\n')
    ensures forall k :: 0 <= k < i ==> s[k] != '\n'
  {
    if s == [] || s[0] == '\n' then 0 else 1 + NewlineAt(s[1..])
  }

  /** A line without its trailing carriage return, as bufio.ScanLines delivers it. */
  function DropCR(l: string): string {
    if l != [] && l[|l| - 1] == '\r' then l[..|l| - 1] else l
  }

  /** bufio.MaxScanTokenSize: the largest buffer a default Scanner grows to. A
      line needs room for itself and its newline; a final line without a newline
      needs one more byte of room, to see the end of the input. */
  const MaxTokenSize := 65536

  /** The lines a bufio.Scanner with the default ScanLines split function yields:
      the text is cut at every newline, a carriage return before a newline is
      dropped, and a final line without a newline still counts unless it is empty.
      At a line of MaxTokenSize bytes or more the scanner stops (ErrTooLong), and
      a loop that does not ask for its error sees the end of the input there. */
  function Lines(s: string): (ls: seq<string>)
    ensures forall k :: 0 <= k < |ls| ==> '\n' !in ls[k]
    decreases |s|
  {
    if s == [] then []
    else
      var i := NewlineAt(s);
      assert '\n' !in s[..i];
      if i >= MaxTokenSize then []
      else [DropCR(s[..i])] + if i < |s| then Lines(s[i + 1..]) else []
  }

  /** Whether the scanner reads `s` to its end: no line of it is too long. */
  predicate ScansFully(s: string)
    decreases |s|
  {
    s == [] || (NewlineAt(s) < MaxTokenSize && (NewlineAt(s) < |s| ==> ScansFully(s[NewlineAt(s) + 1..])))
  }

  function DigitChar(d: nat): char
    requires d < 10
  {
    ('0' as int + d) as char
  }

  function NatToString(n: nat): (r: string)
    ensures r != [] && forall k :: 0 <= k < |r| ==> '0' <= r[k] <= '9'
  {
    if n < 10 then [DigitChar(n)] else NatToString(n / 10) + [DigitChar(n % 10)]
  }

  /** fmt.Sprintf("%d", i) */
  function IntToString(i: int): (r: string)
    ensures r != [] && NoSpace(r)
  {
    if i < 0 then "-" + NatToString(-i) else NatToString(i)
  }

  // ---------------------------------------------------------------------------
  // Facts about the functions above

  /** Every field is a non-empty run of non-space characters. */
  lemma {:induction false} FieldsAreFields(s: string)
    ensures forall k :: 0 <= k < |Fields(s)| ==> IsField(Fields(s)[k])
    decreases |s|
  {
    if s == [] {
    } else if IsSpace(s[0]) {
      FieldsAreFields(s[1..]);
    } else {
      FieldsAreFields(s[|Word(s)|..]);
    }
  }

  /** A text that starts with a non-space character has that character at the head
      of its first field. */
  lemma FieldsHead(t: string)
    requires t != [] && !IsSpace(t[0])
    ensures Fields(t) != [] && Fields(t)[0][0] == t[0]
  {
  }

  lemma {:induction false} WordOf(w: string, rest: string)
    requires IsField(w)
    requires rest == [] || IsSpace(rest[0])
    ensures Word(w + rest) == w
    decreases |w|
  {
    if |w| > 1 {
      assert (w + rest)[1..] == w[1..] + rest;
      WordOf(w[1..], rest);
    } else {
      assert (w + rest)[1..] == rest;
    }
  }

  /** A field followed by white space or by nothing is the first field. */
  lemma FieldsCons(w: string, rest: string)
    requires IsField(w)
    requires rest == [] || IsSpace(rest[0])
    ensures Fields(w + rest) == [w] + Fields(rest)
  {
    var s := w + rest;
    assert s[0] == w[0];
    WordOf(w, rest);
    assert s[|w|..] == rest;
  }

  lemma HeadTail<T>(s: seq<T>)
    requires s != []
    ensures s == [s[0]] + s[1..]
  {
  }

  /** Joining fields with single spaces and splitting the result into fields gives
      the fields back. */
  lemma {:induction false} FieldsOfJoin(ws: seq<string>)
    requires forall k :: 0 <= k < |ws| ==> IsField(ws[k])
    ensures Fields(Join(ws, " ")) == ws
  {
    if ws == [] {
    } else if |ws| == 1 {
      FieldsCons(ws[0], []);
      assert ws[0] + [] == ws[0];
    } else {
      var tl := ws[1..];
      assert forall k :: 0 <= k < |tl| ==> IsField(tl[k]);
      FieldsOfJoin(tl);
      var rest := Join(tl, " ");
      assert Join(ws, " ") == ws[0] + ([' '] + rest);
      FieldsCons(ws[0], [' '] + rest);
      assert ([' '] + rest)[1..] == rest;
      HeadTail(ws);
    }
  }

  /** The first field of a text stops at the first space, so trailing white space
      does not change it. */
  lemma {:induction false} WordAppendSpace(s: string, sp: string)
    requires AllSpace(sp)
    ensures Word(s + sp) == Word(s)
  {
    if s == [] {
      assert s + sp == sp;
    } else if !IsSpace(s[0]) {
      assert (s + sp)[1..] == s[1..] + sp;
      WordAppendSpace(s[1..], sp);
    }
  }

  lemma {:induction false} FieldsAllSpace(sp: string)
    requires AllSpace(sp)
    ensures Fields(sp) == []
  {
    if sp != [] {
      FieldsAllSpace(sp[1..]);
    }
  }

  /** Trailing white space adds no field. */
  lemma {:induction false} FieldsSpaceSuffix(s: string, sp: string)
    requires AllSpace(sp)
    ensures Fields(s + sp) == Fields(s)
    decreases |s|
  {
    if s == [] {
      assert s + sp == sp;
      FieldsAllSpace(sp);
    } else if IsSpace(s[0]) {
      assert (s + sp)[1..] == s[1..] + sp;
      FieldsSpaceSuffix(s[1..], sp);
    } else {
      var w := Word(s);
      WordAppendSpace(s, sp);
      assert (s + sp)[|w|..] == s[|w|..] + sp;
      FieldsSpaceSuffix(s[|w|..], sp);
    }
  }

  /** Leading white space adds no field. */
  lemma {:induction false} FieldsTrimLeft(s: string)
    ensures Fields(TrimLeft(s)) == Fields(s)
  {
    if s != [] && IsSpace(s[0]) {
      FieldsTrimLeft(s[1..]);
    }
  }

  /** The part TrimRight removes is white space. */
  lemma {:induction false} TrimRightRemovesSpace(s: string)
    ensures |TrimRight(s)| <= |s| && AllSpace(s[|TrimRight(s)|..])
  {
    TrimRightPrefix(s);
    if s != [] && IsSpace(s[|s| - 1]) {
      TrimRightRemovesSpace(s[..|s| - 1]);
      assert s[|TrimRight(s)|..] == s[..|s| - 1][|TrimRight(s)|..] + [s[|s| - 1]];
    }
  }

  /** Trimming a line does not change its fields. */
  lemma FieldsTrimSpace(s: string)
    ensures Fields(TrimSpace(s)) == Fields(s)
  {
    var t := TrimLeft(s);
    FieldsTrimLeft(s);
    var r := TrimRight(t);
    TrimRightPrefix(t);
    assert t == r + t[|r|..];
    TrimRightRemovesSpace(t);
    FieldsSpaceSuffix(r, t[|r|..]);
  }

  /** A text with no white space at either end is its own trimmed form. */
  lemma TrimSpaceId(s: string)
    requires s != [] && !IsSpace(s[0]) && !IsSpace(s[|s| - 1])
    ensures TrimSpace(s) == s
  {
    assert TrimLeft(s) == s;
    assert TrimRight(s) == s;
  }

  lemma JoinThree(a: string, b: string, c: string, sep: string)
    ensures Join([a, b, c], sep) == a + sep + b + sep + c
  {
    assert [a, b, c][1..] == [b, c];
    assert [b, c][1..] == [c];
    assert Join([b, c], sep) == b + sep + c;
    assert a + sep + (b + sep + c) == a + sep + b + sep + c;
  }

  /** A line without a newline, followed by a newline, is one scanner line when
      it is short enough, and otherwise the scanner stops at it. */
  lemma LinesCons(l: string, rest: string)
    requires '\n' !in l
    ensures |l| < MaxTokenSize ==> Lines(l + "\n" + rest) == [DropCR(l)] + Lines(rest)
    ensures |l| >= MaxTokenSize ==> Lines(l + "\n" + rest) == []
    ensures ScansFully(l + "\n" + rest) <==> |l| < MaxTokenSize && ScansFully(rest)
  {
    var s := l + "\n" + rest;
    var i := NewlineAt(s);
    assert s[|l|] == '\n';
    assert forall k :: 0 <= k < |l| ==> s[k] == l[k] && s[k] != '\n';
    assert i == |l|;
    assert s[..i] == l;
    assert s[i + 1..] == rest;
  }

  /** A line of MaxTokenSize bytes or more at the front stops the scanner before
      it yields anything, whatever follows. */
  lemma LinesStop(l: string, rest: string)
    requires '\n' !in l && |l| >= MaxTokenSize
    ensures Lines(l + rest) == [] && !ScansFully(l + rest)
  {
    var s := l + rest;
    var i := NewlineAt(s);
    assert forall k :: 0 <= k < |l| ==> s[k] == l[k];
  }

  /** The scanner yields no line exactly for the empty text and for a text whose
      first line is too long. */
  lemma LinesEmpty(s: string)
    ensures Lines(s) == [] <==> s == [] || NewlineAt(s) >= MaxTokenSize
  {
  }
}
