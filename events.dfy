/** Turning raw container output lines into CloudWatch log events
    (main.py, the `strip()`/`if message` filter of the live loop and of the drain pass). */
module Events {

  /** A wall-clock reading. The model never looks inside one: it only records which
      reading an event received. */
  type Instant

  /** One CloudWatch log event: the reading taken when the line was accepted, and its text. */
  datatype LogEvent = LogEvent(timestamp: Instant, message: string)

  /** Python's `str.isspace` for a single character: the characters `str.strip()` removes. */
  predicate IsSpace(c: char) {
    || '\t' <= c <= '\r'
    || '\U{1C}' <= c <= ' '
    || c == '\U{85}' || c == '\U{A0}' || c == '\U{1680}'
    || '\U{2000}' <= c <= '\U{200A}'
    || c == '\U{2028}' || c == '\U{2029}' || c == '\U{202F}' || c == '\U{205F}' || c == '\U{3000}'
  }

  /** Every character of `s` is whitespace (the empty string included). */
  predicate Blank(s: string) {
    forall i :: 0 <= i < |s| ==> IsSpace(s[i])
  }

  /** `s.lstrip()`: `s` without its leading whitespace (`TrimStartSpec`). */
  function TrimStart(s: string): string
    decreases |s|
  {
    if |s| > 0 && IsSpace(s[0]) then TrimStart(s[1..]) else s
  }

  /** `s.rstrip()`: `s` without its trailing whitespace (`TrimEndSpec`). */
  function TrimEnd(s: string): string
    decreases |s|
  {
    if |s| > 0 && IsSpace(s[|s| - 1]) then TrimEnd(s[..|s| - 1]) else s
  }

  /** `s.strip()`: `s` with its leading and trailing whitespace removed (`StripSpec`). */
  function Strip(s: string): string {
    TrimEnd(TrimStart(s))
  }

  /** `lstrip()` keeps the longest suffix of `s` that does not start with whitespace:
      everything it cuts off is whitespace, and what it keeps does not start with any. */
  lemma {:induction false} TrimStartSpec(s: string)
    ensures var r := TrimStart(s);
      && |r| <= |s| && r == s[|s| - |r|..]
      && (forall i :: 0 <= i < |s| - |r| ==> IsSpace(s[i]))
      && (r == [] || !IsSpace(r[0]))
    decreases |s|
  {
    if |s| > 0 && IsSpace(s[0]) {
      TrimStartSpec(s[1..]);
      var r := TrimStart(s[1..]);
      assert s[1..][|s| - 1 - |r|..] == s[|s| - |r|..];
      forall i | 0 <= i < |s| - |r| ensures IsSpace(s[i]) {
        if i > 0 { assert s[i] == s[1..][i - 1]; }
      }
    }
  }

  /** `rstrip()` keeps the longest prefix of `s` that does not end with whitespace:
      everything it cuts off is whitespace, and what it keeps does not end with any. */
  lemma {:induction false} TrimEndSpec(s: string)
    ensures var r := TrimEnd(s);
      && |r| <= |s| && r == s[..|r|]
      && (forall i :: |r| <= i < |s| ==> IsSpace(s[i]))
      && (r == [] || !IsSpace(r[|r| - 1]))
    decreases |s|
  {
    if |s| > 0 && IsSpace(s[|s| - 1]) {
      var init := s[..|s| - 1];
      TrimEndSpec(init);
      var r := TrimEnd(init);
      assert init[..|r|] == s[..|r|];
      forall i | |r| <= i < |s| ensures IsSpace(s[i]) {
        if i < |s| - 1 { assert s[i] == init[i]; }
      }
    }
  }

  /** `strip()` gives the empty string exactly when `s` is blank, so `if message` rejects
      exactly the blank lines; what it keeps is no longer than `s` and starts and ends
      with a character that is not whitespace. */
  lemma StripSpec(s: string)
    ensures |Strip(s)| <= |s|
    ensures Strip(s) == [] <==> Blank(s)
    ensures Strip(s) != [] ==> !IsSpace(Strip(s)[0]) && !IsSpace(Strip(s)[|Strip(s)| - 1])
  {
    var t := TrimStart(s);
    TrimStartSpec(s);
    TrimEndSpec(t);
    var r := TrimEnd(t);
    assert r == [] <==> Blank(t);
    assert t == [] <==> Blank(s);
    assert r != [] ==> r[0] == t[0];
  }

  /** What `strip()` keeps is the infix of `s` between a blank prefix and a blank suffix. */
  lemma StripIsInfix(s: string)
    ensures exists lo :: 0 <= lo <= |s| - |Strip(s)| && Strip(s) == s[lo..lo + |Strip(s)|]
                         && Blank(s[..lo]) && Blank(s[lo + |Strip(s)|..])
  {
    var t := TrimStart(s);
    var r := TrimEnd(t);
    TrimStartSpec(s);
    TrimEndSpec(t);
    var lo := |s| - |t|;
    assert r == s[lo..lo + |r|] by {
      assert t == s[lo..];
      assert r == t[..|r|];
    }
    assert Blank(s[..lo]) by {
      forall i | 0 <= i < lo ensures IsSpace(s[..lo][i]) { assert s[..lo][i] == s[i]; }
    }
    var post := s[lo + |r|..];
    assert Blank(post) by {
      forall i | 0 <= i < |post| ensures IsSpace(post[i]) { assert post[i] == t[|r| + i]; }
    }
    assert Strip(s) == r;
  }

  /** Stripping is determined by what lies between the padding: whatever blank text
      surrounds a string with non-blank ends, `strip()` gives that string back. */
  lemma StripPadded(pre: string, m: string, post: string)
    requires Blank(pre) && Blank(post)
    requires m == [] || (!IsSpace(m[0]) && !IsSpace(m[|m| - 1]))
    ensures Strip(pre + m + post) == m
  {
    var s := pre + m + post;
    StripSpec(s);
    if m == [] {
      assert Blank(s) by {
        forall i | 0 <= i < |s| ensures IsSpace(s[i]) {
          if i < |pre| { assert s[i] == pre[i]; } else { assert s[i] == post[i - |pre|]; }
        }
      }
    } else {
      var t := TrimStart(s);
      TrimStartSpec(s);
      TrimEndSpec(t);
      var d := |s| - |t|;
      assert s[|pre|] == m[0];
      assert d == |pre|;
      assert t == m + post;
      var r := TrimEnd(t);
      assert t[|m| - 1] == m[|m| - 1];
      assert |r| == |m|;
      assert r == t[..|m|] == m;
    }
  }

  /** Stripping twice is stripping once. */
  lemma StripIdempotent(s: string)
    ensures Strip(Strip(s)) == Strip(s)
  {
    StripSpec(s);
    StripPadded([], Strip(s), []);
    assert [] + Strip(s) + [] == Strip(s);
  }

  /** The messages of the accepted lines, in arrival order: each line is stripped, and it
      yields a message exactly when the stripped text is not empty; that text is the
      message. */
  function Messages(lines: seq<string>): (ms: seq<string>)
    ensures |ms| <= |lines|
    decreases |lines|
  {
    if lines == [] then []
    else
      var m := Strip(lines[|lines| - 1]);
      Messages(lines[..|lines| - 1]) + (if m == [] then [] else [m])
  }

  /** Every message is non-empty and already stripped: stripping it again gives it back. */
  lemma {:induction false} MessagesStripped(lines: seq<string>)
    ensures forall i :: 0 <= i < |Messages(lines)| ==> Messages(lines)[i] != [] && Strip(Messages(lines)[i]) == Messages(lines)[i]
    decreases |lines|
  {
    if lines != [] {
      var init, last := lines[..|lines| - 1], lines[|lines| - 1];
      MessagesStripped(init);
      StripIdempotent(last);
    }
  }

  /** One line on its own yields no message when it is blank, and its stripped text otherwise. */
  lemma MessagesOfLine(line: string)
    ensures Messages([line]) == if Blank(line) then [] else [Strip(line)]
  {
    StripSpec(line);
    assert [line][..0] == [];
  }

  /** Accepting lines commutes with concatenating them: the messages of two runs of
      lines are the messages of the first followed by those of the second. */
  lemma {:induction false} MessagesAppend(a: seq<string>, b: seq<string>)
    ensures Messages(a + b) == Messages(a) + Messages(b)
    decreases |b|
  {
    if b == [] {
      assert a + b == a;
    } else {
      var b' := b[..|b| - 1];
      assert (a + b)[..|a + b| - 1] == a + b';
      assert (a + b)[|a + b| - 1] == b[|b| - 1];
      MessagesAppend(a, b');
    }
  }

  /** Filtering law: blank lines never produce a message, however many of them arrive. */
  lemma {:induction false} BlankLinesYieldNothing(lines: seq<string>)
    requires forall i :: 0 <= i < |lines| ==> Blank(lines[i])
    ensures Messages(lines) == []
    decreases |lines|
  {
    if lines != [] {
      StripSpec(lines[|lines| - 1]);
      BlankLinesYieldNothing(lines[..|lines| - 1]);
    }
  }

  /** The stripped text of every line, blank or not. */
  function StripAll(lines: seq<string>): (ss: seq<string>)
    ensures |ss| == |lines| && forall i :: 0 <= i < |lines| ==> ss[i] == Strip(lines[i])
  {
    seq(|lines|, i requires 0 <= i < |lines| => Strip(lines[i]))
  }

  /** Lines that are not blank are all kept: each yields its stripped text, in order. */
  lemma {:induction false} NonBlankLinesAllKept(lines: seq<string>)
    requires forall i :: 0 <= i < |lines| ==> !Blank(lines[i])
    ensures Messages(lines) == StripAll(lines)
    decreases |lines|
  {
    if lines != [] {
      var init, last := lines[..|lines| - 1], lines[|lines| - 1];
      forall i | 0 <= i < |init| ensures !Blank(init[i]) {
        assert init[i] == lines[i];
      }
      NonBlankLinesAllKept(init);
      StripSpec(last);
      assert Messages(lines) == StripAll(init) + [Strip(last)];
      StripAllSnoc(init, last);
    }
  }

  lemma StripAllSnoc(init: seq<string>, last: string)
    ensures StripAll(init + [last]) == StripAll(init) + [Strip(last)]
  {
    var l, r := StripAll(init + [last]), StripAll(init) + [Strip(last)];
    forall i | 0 <= i < |l| ensures l[i] == r[i] {
      if i < |init| { assert (init + [last])[i] == init[i]; }
    }
  }

  /** The log events built from messages, the `n`-th of them carrying the clock reading
      numbered `start + n`: the clock is read once for each accepted line. */
  function Stamp(ms: seq<string>, clock: nat -> Instant, start: nat): (evs: seq<LogEvent>)
    ensures |evs| == |ms|
    ensures forall i :: 0 <= i < |ms| ==> evs[i] == LogEvent(clock(start + i), ms[i])
  {
    seq(|ms|, i requires 0 <= i < |ms| => LogEvent(clock(start + i), ms[i]))
  }

  /** Stamping a concatenation: the second part continues numbering where the first ended. */
  lemma StampAppend(a: seq<string>, b: seq<string>, clock: nat -> Instant, start: nat)
    ensures Stamp(a + b, clock, start) == Stamp(a, clock, start) + Stamp(b, clock, start + |a|)
  {
    var l, r := Stamp(a + b, clock, start), Stamp(a, clock, start) + Stamp(b, clock, start + |a|);
    assert |l| == |r|;
    forall i | 0 <= i < |l| ensures l[i] == r[i] {
      if i < |a| { assert (a + b)[i] == a[i]; } else { assert (a + b)[i] == b[i - |a|]; }
    }
  }
}
