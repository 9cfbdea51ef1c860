/**
 The paste guard: src/clipboard/guard.js over src/core/text.js. Text is a sequence of
 UTF-16 code units, as JavaScript has it. The concrete patterns are abstracted to one
 predicate on a line, which every statement here takes as a parameter.
 */
module Guard {

  type Unit = x: int | 0 <= x < 0x1_0000
  type Text = seq<Unit>

  const NUL: Unit := 0x00
  const LF: Unit := 0x0A
  const CR: Unit := 0x0D

  const MAX_SCAN_CHARS: nat := 8192

  predicate Invisible(u: Unit) {
    || 0x0000 <= u <= 0x0008 || 0x000B <= u <= 0x001F || 0x007F <= u <= 0x009F
    || 0x200E <= u <= 0x200F || 0x202A <= u <= 0x202E || 0x2066 <= u <= 0x2069
  }

  /** What String.prototype.trim takes off. */
  predicate Blank(u: Unit) {
    || 0x0009 <= u <= 0x000D || u == 0x0020 || u == 0x00A0 || u == 0x1680 || 0x2000 <= u <= 0x200A
    || u == 0x2028 || u == 0x2029 || u == 0x202F || u == 0x205F || u == 0x3000 || u == 0xFEFF
  }

  function Unify(t: Text): Text {
    if t == [] then []
    else if |t| > 1 && t[0] == CR && t[1] == LF then [LF] + Unify(t[2..])
    else [t[0]] + Unify(t[1..])
  }

  function StripInvisible(t: Text): Text {
    if t == [] then [] else (if Invisible(t[0]) then [] else [t[0]]) + StripInvisible(t[1..])
  }

  function DropNewlines(t: Text): Text {
    if t != [] && t[|t| - 1] == LF then DropNewlines(t[..|t| - 1]) else t
  }

  function Defuse(t: Text): Text {
    DropNewlines(StripInvisible(Unify(t)))
  }

  predicate HasInvisible(t: Text) {
    exists i :: 0 <= i < |t| && Invisible(t[i])
  }

  /** Whether something invisible was taken away, and not just a newline at the end. */
  predicate WasAltered(t: Text) {
    HasInvisible(Unify(t))
  }

  /** Nothing hidden, and nothing at the end to run it. */
  predicate Clean(t: Text) {
    !HasInvisible(t) && (t != [] ==> t[|t| - 1] != LF)
  }

  // ------------------------------------------------------------------
  // Defusing.
  // ------------------------------------------------------------------

  lemma {:induction false} StripLeavesNone(t: Text)
    ensures !HasInvisible(StripInvisible(t))
    ensures StripInvisible(t) == t <==> !HasInvisible(t)
    ensures |StripInvisible(t)| <= |t|
  {
    if t != [] {
      StripLeavesNone(t[1..]);
      assert forall i :: 0 < i < |t| ==> t[i] == t[1..][i - 1];
      if !Invisible(t[0]) {
        assert StripInvisible(t) == [t[0]] + StripInvisible(t[1..]);
        assert t == [t[0]] + t[1..];
        assert StripInvisible(t) == t ==> StripInvisible(t)[1..] == t[1..];
        if HasInvisible(t[1..]) {
          var i :| 0 <= i < |t[1..]| && Invisible(t[1..][i]);
          assert Invisible(t[i + 1]);
        }
      } else {
        assert HasInvisible(t);
      }
    }
  }

  /** A carriage return is invisible itself, so stripping alone removes it. */
  lemma {:induction false} UnifyIsRedundant(t: Text)
    ensures StripInvisible(Unify(t)) == StripInvisible(t)
  {
    if t == [] {
    } else if |t| > 1 && t[0] == CR && t[1] == LF {
      UnifyIsRedundant(t[2..]);
      assert t[1..][1..] == t[2..];
      assert ([LF] + Unify(t[2..]))[1..] == Unify(t[2..]);
    } else {
      UnifyIsRedundant(t[1..]);
      assert ([t[0]] + Unify(t[1..]))[1..] == Unify(t[1..]);
    }
  }

  lemma {:induction false} DropLeavesNone(t: Text)
    ensures DropNewlines(t) <= t
    ensures DropNewlines(t) != [] ==> DropNewlines(t)[|DropNewlines(t)| - 1] != LF
    ensures forall i :: |DropNewlines(t)| <= i < |t| ==> t[i] == LF
  {
    if t != [] && t[|t| - 1] == LF {
      DropLeavesNone(t[..|t| - 1]);
    }
  }

  /** Whatever a peer sent, the result hides nothing and does not end in a newline. */
  lemma DefusedIsClean(t: Text)
    ensures Clean(Defuse(t))
  {
    StripLeavesNone(Unify(t));
    DropLeavesNone(StripInvisible(Unify(t)));
  }

  /** Text that was clean already comes through untouched, and only such text does. */
  lemma DefuseKeepsCleanText(t: Text)
    ensures Defuse(t) == t <==> Clean(t)
  {
    DefusedIsClean(t);
    UnifyIsRedundant(t);
    StripLeavesNone(t);
  }

  lemma DefuseIsIdempotent(t: Text)
    ensures Defuse(Defuse(t)) == Defuse(t)
  {
    DefusedIsClean(t);
    DefuseKeepsCleanText(Defuse(t));
  }

  /** Exactly this is taken away: the invisible characters, and then the newlines at the end. */
  lemma DefuseOnlyRemoves(t: Text)
    ensures Defuse(t) <= StripInvisible(t)
    ensures forall i :: |Defuse(t)| <= i < |StripInvisible(t)| ==> StripInvisible(t)[i] == LF
  {
    UnifyIsRedundant(t);
    DropLeavesNone(StripInvisible(t));
  }

  /** Text is reported as altered exactly when more than newlines at its end was taken away. */
  lemma AlteredMeans(t: Text)
    ensures !WasAltered(t) <==> StripInvisible(Unify(t)) == Unify(t)
    ensures !WasAltered(t) ==> Defuse(t) == DropNewlines(Unify(t))
  {
    StripLeavesNone(Unify(t));
  }

  /** Newlines first and invisibles second would leave the one that runs it. */
  lemma OrderMatters()
    ensures !Clean(StripInvisible(DropNewlines(Unify([LF, NUL])))) && Clean(Defuse([LF, NUL]))
  {
    var t: Text := [LF, NUL];
    assert Unify(t) == t by {
      assert t[1..] == [NUL] && Unify([NUL]) == [NUL];
    }
    assert StripInvisible(t) == [LF] by {
      assert t[1..] == [NUL] && StripInvisible([NUL]) == [];
    }
    DefusedIsClean(t);
  }

  // ------------------------------------------------------------------
  // Scanning.
  // ------------------------------------------------------------------

  function TrimStart(t: Text): Text {
    if t != [] && Blank(t[0]) then TrimStart(t[1..]) else t
  }

  function TrimEnd(t: Text): Text {
    if t != [] && Blank(t[|t| - 1]) then TrimEnd(t[..|t| - 1]) else t
  }

  function Trim(t: Text): Text {
    TrimEnd(TrimStart(t))
  }

  /** Split at every newline; one line more than there are newlines. */
  function Lines(t: Text): (r: seq<Text>)
    ensures |r| > 0
  {
    if t == [] then [[]]
    else
      var rest := Lines(t[1..]);
      if t[0] == LF then [[]] + rest else [[t[0]] + rest[0]] + rest[1..]
  }

  /** What the scan objects to: a match, or a line it does not look at. */
  predicate Suspicious(danger: Text -> bool, line: Text) {
    |line| > MAX_SCAN_CHARS || danger(line)
  }

  predicate Flagged(danger: Text -> bool, t: Text) {
    Trim(t) != [] && exists k :: 0 <= k < |Lines(Trim(t))| && Suspicious(danger, Lines(Trim(t))[k])
  }

  method LooksExecutable(danger: Text -> bool, t: Text) returns (risk: bool)
    ensures risk == Flagged(danger, t)
  {
    var s := Trim(t);
    if s == [] {
      return false;
    }
    var lines := Lines(s);
    for k := 0 to |lines|
      invariant forall j :: 0 <= j < k ==> !Suspicious(danger, lines[j])
    {
      if |lines[k]| > MAX_SCAN_CHARS {
        return true;
      }
      if danger(lines[k]) {
        return true;
      }
    }
    return false;
  }

  predicate OneLine(t: Text) {
    LF !in t
  }

  lemma {:induction false} LinesOfOne(line: Text)
    requires OneLine(line)
    ensures Lines(line) == [line]
  {
    if line != [] {
      LinesOfOne(line[1..]);
      assert line == [line[0]] + line[1..];
    }
  }

  lemma LinesCons(t: Text)
    ensures Lines(t) == if t == [] then [[]] else if t[0] == LF then [[]] + Lines(t[1..]) else [[t[0]] + Lines(t[1..])[0]] + Lines(t[1..])[1..]
  {
  }

  /** One more character in front changes the first line only. */
  lemma LinesPush(t: Text, rest: seq<Text>, more: seq<Text>)
    requires t != [] && |rest| > 0 && Lines(t[1..]) == rest + more
    ensures Lines(t) == (if t[0] == LF then [[]] + rest else [[t[0]] + rest[0]] + rest[1..]) + more
  {
    hide Lines;
    LinesCons(t);
    assert (rest + more)[1..] == rest[1..] + more;
  }

  /** A newline always ends a line: what comes before it cannot reach past it. */
  lemma {:induction false} LinesAcross(a: Text, b: Text)
    ensures Lines(a + [LF] + b) == Lines(a) + Lines(b)
  {
    hide Lines;
    var whole := a + [LF] + b;
    LinesCons(whole);
    LinesCons(a);
    if a == [] {
      assert whole[1..] == b;
    } else {
      LinesAcross(a[1..], b);
      assert whole[1..] == a[1..] + [LF] + b;
      LinesPush(whole, Lines(a[1..]), Lines(b));
    }
  }

  predicate Visible(t: Text) {
    exists i :: 0 <= i < |t| && !Blank(t[i])
  }

  /** Trimming stops at the first visible character, so it never reaches what follows. */
  lemma {:induction false} TrimStartStops(a: Text, b: Text)
    requires Visible(a)
    ensures TrimStart(a + b) == TrimStart(a) + b && Visible(TrimStart(a))
  {
    if Blank(a[0]) {
      var i :| 0 <= i < |a| && !Blank(a[i]);
      assert !Blank(a[1..][i - 1]);
      assert (a + b)[1..] == a[1..] + b;
      TrimStartStops(a[1..], b);
    }
  }

  lemma {:induction false} TrimEndStops(a: Text, b: Text)
    requires Visible(b)
    ensures TrimEnd(a + b) == a + TrimEnd(b)
  {
    if Blank(b[|b| - 1]) {
      var i :| 0 <= i < |b| && !Blank(b[i]);
      assert !Blank(b[..|b| - 1][i]);
      assert (a + b)[..|a + b| - 1] == a + b[..|b| - 1];
      TrimEndStops(a, b[..|b| - 1]);
    }
  }

  lemma {:induction false} TrimStartIsSuffix(t: Text) returns (k: nat)
    ensures k <= |t| && TrimStart(t) == t[k..]
  {
    k := 0;
    if t != [] && Blank(t[0]) {
      k := TrimStartIsSuffix(t[1..]);
      k := k + 1;
    }
  }

  lemma {:induction false} TrimEndIsPrefix(t: Text)
    ensures TrimEnd(t) <= t
  {
    if t != [] && Blank(t[|t| - 1]) { TrimEndIsPrefix(t[..|t| - 1]); }
  }

  lemma {:induction false} TrimStartPasses(a: Text, b: Text)
    requires !Visible(a)
    ensures TrimStart(a + b) == TrimStart(b)
  {
    if a == [] {
      assert a + b == b;
    } else {
      assert (a + b)[1..] == a[1..] + b;
      assert forall i :: 0 <= i < |a[1..]| ==> a[1..][i] == a[i + 1];
      TrimStartPasses(a[1..], b);
    }
  }

  lemma {:induction false} TrimEndPasses(a: Text, b: Text)
    requires !Visible(b)
    ensures TrimEnd(a + b) == TrimEnd(a)
  {
    if b == [] {
      assert a + b == a;
    } else {
      assert (a + b)[..|a + b| - 1] == a + b[..|b| - 1];
      TrimEndPasses(a, b[..|b| - 1]);
    }
  }

  lemma {:induction false} TrimEndVisible(t: Text)
    requires Visible(t)
    ensures Visible(TrimEnd(t))
  {
    if Blank(t[|t| - 1]) {
      var i :| 0 <= i < |t| && !Blank(t[i]);
      assert !Blank(t[..|t| - 1][i]);
      TrimEndVisible(t[..|t| - 1]);
    }
  }

  predicate EndsLine(a: Text) {
    a == [] || a[|a| - 1] == LF
  }

  predicate StartsLine(b: Text) {
    b == [] || b[0] == LF
  }

  /** A line as the scan sees it: blanks at its ends go where there is nothing visible beyond them. */
  function SeenOf(a: Text, line: Text, b: Text): Text {
    var left := if Visible(a) then line else TrimStart(line);
    if Visible(b) then left else TrimEnd(left)
  }

  /** What trimming leaves in front is nothing, or whole lines. */
  lemma FrontOf(a: Text, rest: Text) returns (front: Text)
    requires EndsLine(a)
    ensures EndsLine(front)
    ensures Visible(a) ==> front != [] && TrimStart(a + rest) == front + rest
    ensures !Visible(a) ==> front == [] && TrimStart(a + rest) == TrimStart(rest)
  {
    if Visible(a) {
      TrimStartStops(a, rest);
      var k := TrimStartIsSuffix(a);
      front := TrimStart(a);
    } else {
      TrimStartPasses(a, rest);
      front := [];
    }
  }

  lemma BackOf(rest: Text, b: Text) returns (back: Text)
    requires StartsLine(b)
    ensures StartsLine(back)
    ensures Visible(b) ==> back != [] && TrimEnd(rest + b) == rest + back
    ensures !Visible(b) ==> back == [] && TrimEnd(rest + b) == TrimEnd(rest)
  {
    if Visible(b) {
      TrimEndStops(rest, b);
      TrimEndIsPrefix(b);
      TrimEndVisible(b);
      back := TrimEnd(b);
    } else {
      TrimEndPasses(rest, b);
      back := [];
    }
  }

  /** The text after trimming is some whole lines, the line as the scan sees it, and some more whole lines. */
  lemma TrimAround(a: Text, line: Text, b: Text) returns (front: Text, back: Text)
    requires EndsLine(a) && StartsLine(b) && (Visible(line) || (Visible(a) && Visible(b)))
    ensures EndsLine(front) && StartsLine(back) && Trim(a + line + b) == front + SeenOf(a, line, b) + back
    ensures Trim(a + line + b) != []
  {
    hide TrimStart, TrimEnd, Blank, Visible;
    assert a + line + b == a + (line + b);
    front := FrontOf(a, line + b);
    var left := if Visible(a) then line else TrimStart(line);
    if !Visible(a) { TrimStartStops(line, b); }
    assert TrimStart(a + line + b) == front + left + b by {
      assert front + (line + b) == front + line + b;
      assert front + left == left || Visible(a);
    }
    back := BackOf(front + left, b);
    if !Visible(b) {
      TrimEndStops(front, left);
      TrimEndVisible(left);
      VisibleIsSomething(TrimEnd(left));
    }
  }

  lemma VisibleIsSomething(t: Text)
    requires Visible(t)
    ensures t != []
  {
  }

  lemma {:induction false} TrimStaysOnOneLine(line: Text)
    requires OneLine(line)
    ensures OneLine(TrimStart(line)) && OneLine(TrimEnd(line))
  {
    var k := TrimStartIsSuffix(line);
    TrimEndIsPrefix(line);
  }

  /** One of the lines of the trimmed text, so it is scanned. */
  lemma LineInside(front: Text, line: Text, back: Text) returns (k: nat)
    requires OneLine(line) && EndsLine(front) && StartsLine(back)
    ensures k < |Lines(front + line + back)| && Lines(front + line + back)[k] == line
  {
    hide Lines;
    LinesOfOne(line);
    if back != [] {
      assert line + back == line + [LF] + back[1..];
      LinesAcross(line, back[1..]);
    } else {
      assert line + back == line;
    }
    assert Lines(line + back)[0] == line;
    if front != [] {
      assert front + line + back == front[..|front| - 1] + [LF] + (line + back);
      LinesAcross(front[..|front| - 1], line + back);
      k := |Lines(front[..|front| - 1])|;
    } else {
      assert front + line + back == line + back;
      k := 0;
    }
  }

  /** Wherever a line stands in a clip, the clip is flagged if the line is suspicious as the scan sees it. */
  lemma ScanSees(danger: Text -> bool, a: Text, line: Text, b: Text)
    requires OneLine(line) && EndsLine(a) && StartsLine(b) && (Visible(line) || (Visible(a) && Visible(b)))
    requires Suspicious(danger, SeenOf(a, line, b))
    ensures Flagged(danger, a + line + b)
  {
    hide Lines, Visible, Suspicious;
    var front, back := TrimAround(a, line, b);
    TrimStaysOnOneLine(line);
    TrimStaysOnOneLine(TrimStart(line));
    var k := LineInside(front, SeenOf(a, line, b), back);
    assert Suspicious(danger, Lines(Trim(a + line + b))[k]);
  }

  lemma TrimmedStays(line: Text)
    requires Trim(line) == line && line != []
    ensures TrimStart(line) == line && TrimEnd(line) == line && Visible(line)
  {
    var k := TrimStartIsSuffix(line);
    TrimEndIsPrefix(TrimStart(line));
    var j := TrimStartIsSuffix(line[1..]);
    assert |TrimStart(line)| == |line| && |TrimStart(line[1..])| < |line|;
    assert !Blank(line[0]);
  }

  /**
   No padding hides a suspicious line, blank or not, however much, in front of it, behind
   it, on both sides or on neither.
   */
  lemma PaddingHidesNothing(danger: Text -> bool, a: Text, line: Text, b: Text)
    requires Suspicious(danger, line) && OneLine(line) && Trim(line) == line && line != []
    requires EndsLine(a) && StartsLine(b)
    ensures Flagged(danger, a + line + b)
  {
    hide Flagged, Suspicious, Visible;
    TrimmedStays(line);
    ScanSees(danger, a, line, b);
  }
}
