/** The reference line splitter: one byte at a time, no buffering tricks.
    Everything the incremental `LineWriter` does is measured against it. */
module LineSplit {
  newtype byte = b: int | 0 <= b < 0x100

  type Bytes = seq<byte>

  const LF: byte := 10
  const CR: byte := 13
  const DEFAULT_MAX_LINE_LENGTH: nat := 64 * 1024

  /** `raw` holds the pieces cut so far, untrimmed; `buf` the bytes since the last cut. */
  datatype Split = Split(raw: seq<Bytes>, buf: Bytes)

  const EMPTY := Split([], [])

  function Step(m: nat, s: Split, b: byte): Split {
    if b == LF then Split(s.raw + [s.buf], [])
    else if |s.buf| >= m then Split(s.raw + [s.buf], [b])
    else Split(s.raw, s.buf + [b])
  }

  function Feed(m: nat, s: Split, p: Bytes): Split
    decreases |p|
  {
    if p == [] then s else Feed(m, Step(m, s, p[0]), p[1..])
  }

  /** End of the stream: a pending partial line becomes the last piece. */
  function Finish(s: Split): Split {
    if s.buf == [] then s else Split(s.raw + [s.buf], [])
  }

  /** A piece without its trailing carriage returns. */
  function TrimCR(line: Bytes): Bytes {
    if line != [] && line[|line| - 1] == CR then TrimCR(line[..|line| - 1]) else line
  }

  /** What the logger sees of the pieces: trimmed, empty ones dropped. */
  function Entries(raw: seq<Bytes>): seq<Bytes> {
    if raw == [] then []
    else
      var line := TrimCR(raw[|raw| - 1]);
      Entries(raw[..|raw| - 1]) + if line == [] then [] else [line]
  }

  function Concat(chunks: seq<Bytes>): Bytes {
    if chunks == [] then [] else chunks[0] + Concat(chunks[1..])
  }

  // ---------- Cutting the input anywhere makes no difference ----------

  lemma {:induction false} FeedConcat(m: nat, s: Split, p: Bytes, q: Bytes)
    ensures Feed(m, s, p + q) == Feed(m, Feed(m, s, p), q)
    decreases |p|
  {
    if p == [] {
      assert p + q == q;
    } else {
      assert (p + q)[1..] == p[1..] + q;
      FeedConcat(m, Step(m, s, p[0]), p[1..], q);
    }
  }

  function FeedAll(m: nat, s: Split, writes: seq<Bytes>): Split
    decreases |writes|
  {
    if writes == [] then s else FeedAll(m, Feed(m, s, writes[0]), writes[1..])
  }

  lemma {:induction false} FragmentationIndependence(m: nat, s: Split, writes: seq<Bytes>)
    ensures FeedAll(m, s, writes) == Feed(m, s, Concat(writes))
    decreases |writes|
  {
    if writes != [] {
      FeedConcat(m, s, writes[0], Concat(writes[1..]));
      FragmentationIndependence(m, Feed(m, s, writes[0]), writes[1..]);
    }
  }

  // ---------- What one loop iteration of the incremental writer may do ----------

  /** A newline-free run that fits is buffered and nothing else happens. */
  lemma {:induction false} FeedFits(m: nat, s: Split, p: Bytes)
    requires LF !in p && |s.buf| + |p| <= m
    ensures Feed(m, s, p) == Split(s.raw, s.buf + p)
    decreases |p|
  {
    if p == [] {
      assert s.buf + p == s.buf;
    } else {
      FeedFits(m, Step(m, s, p[0]), p[1..]);
      assert s.buf + [p[0]] + p[1..] == s.buf + p;
    }
  }

  /** Filling the buffer to `m` and cutting at once is the same as cutting when the next byte comes,
      provided a next byte exists and is no newline. */
  lemma ForcedSplit(m: nat, s: Split, rest: Bytes, c: nat)
    requires 0 < m && |s.buf| + c == m && c < |rest| && LF !in rest[..c + 1]
    ensures Feed(m, s, rest) == Feed(m, Split(s.raw + [s.buf + rest[..c]], []), rest[c..])
  {
    assert rest == rest[..c] + rest[c..];
    assert forall i :: 0 <= i < c ==> rest[..c][i] == rest[..c + 1][i];
    assert rest[..c + 1][c] == rest[c];
    FeedConcat(m, s, rest[..c], rest[c..]);
    FeedFits(m, s, rest[..c]);
    var full := s.buf + rest[..c];
    assert Step(m, Split(s.raw, full), rest[c]) == Step(m, Split(s.raw + [full], []), rest[c]);
  }

  /** A line that fits, with its newline, becomes one piece. */
  lemma WholeLine(m: nat, s: Split, rest: Bytes, i: nat)
    requires i < |rest| && rest[i] == LF && LF !in rest[..i] && |s.buf| + i <= m
    ensures Feed(m, s, rest) == Feed(m, Split(s.raw + [s.buf + rest[..i]], []), rest[i + 1..])
  {
    assert rest == rest[..i] + rest[i..];
    FeedConcat(m, s, rest[..i], rest[i..]);
    FeedFits(m, s, rest[..i]);
  }

  // ---------- Shape: the pieces, said without running the splitter ----------

  /** A line cut into pieces of exactly `m` bytes and a last one of at most `m`. */
  function Pieces(m: nat, line: Bytes): (pieces: seq<Bytes>)
    requires 0 < m
    ensures |pieces| > 0
    decreases |line|
  {
    if |line| <= m then [line] else [line[..m]] + Pieces(m, line[m..])
  }

  /** The lines of a byte string; the last one has no newline. */
  function Lines(s: Bytes): (lines: seq<Bytes>)
    ensures |lines| > 0
  {
    if s == [] then [[]]
    else
      var rest := Lines(s[1..]);
      if s[0] == LF then [[]] + rest else [[s[0]] + rest[0]] + rest[1..]
  }

  /** The lines put together again. */
  function Joined(lines: seq<Bytes>): Bytes {
    if lines == [] then [] else if |lines| == 1 then lines[0] else lines[0] + [LF] + Joined(lines[1..])
  }

  /** Cutting at newlines, exactly: no line contains one, and joined with newlines they are the input. */
  lemma {:induction false} LinesExactly(s: Bytes)
    ensures Joined(Lines(s)) == s && forall l :: l in Lines(s) ==> LF !in l
  {
    if s != [] {
      LinesExactly(s[1..]);
      var rest := Lines(s[1..]);
      if s[0] == LF {
        assert ([[]] + rest)[1..] == rest;
        assert Joined(Lines(s)) == [] + [LF] + Joined(rest);
      } else {
        var l := [[s[0]] + rest[0]] + rest[1..];
        assert l[1..] == rest[1..];
        assert Joined(l) == [s[0]] + Joined(rest);
      }
      assert [s[0]] + s[1..] == s;
    }
  }

  function AllPieces(m: nat, lines: seq<Bytes>): seq<Bytes>
    requires 0 < m
  {
    if lines == [] then [] else Pieces(m, lines[0]) + AllPieces(m, lines[1..])
  }

  /** `k` is `n / m` rounded up. */
  ghost predicate CeilDiv(k: nat, n: nat, m: nat) {
    if n == 0 then k == 0 else k > 0 && (k - 1) * m < n <= k * m
  }

  lemma CeilDivStep(k: nat, n: nat, m: nat)
    requires 0 < m && 0 < n && CeilDiv(k, n, m)
    ensures CeilDiv(k + 1, n + m, m)
  {
    assert (k + 1) * m == k * m + m && k * m == (k - 1) * m + m;
  }

  /** A line of n > 0 bytes is cut into exactly ceil(n / m) pieces, all of m bytes but the last. */
  lemma {:induction false} PiecesShape(m: nat, line: Bytes)
    requires 0 < m
    ensures var ps := Pieces(m, line);
            && (if line == [] then ps == [[]] else CeilDiv(|ps|, |line|, m))
            && (forall i :: 0 <= i < |ps| - 1 ==> |ps[i]| == m)
            && |ps[|ps| - 1]| <= m
            && (line != [] ==> ps[|ps| - 1] != [])
            && Concat(ps) == line
    decreases |line|
  {
    hide CeilDiv;
    if |line| > m {
      PiecesShape(m, line[m..]);
      CeilDivStep(|Pieces(m, line[m..])|, |line| - m, m);
      assert line == line[..m] + line[m..];
    } else {
      CeilDivOne(|line|, m);
      assert Concat([line]) == line + Concat([]);
    }
  }

  lemma CeilDivOne(n: nat, m: nat)
    requires 0 < m && n <= m
    ensures n > 0 ==> CeilDiv(1, n, m)
  {}

  /** Feeding one newline-free run from an empty buffer leaves its last piece in the buffer. */
  lemma {:induction false} FeedLine(m: nat, raw: seq<Bytes>, line: Bytes)
    requires 0 < m && LF !in line
    ensures var ps := Pieces(m, line);
            Feed(m, Split(raw, []), line) == Split(raw + ps[..|ps| - 1], ps[|ps| - 1])
    decreases |line|
  {
    var ps := Pieces(m, line);
    if |line| <= m {
      FeedFits(m, Split(raw, []), line);
      assert [] + line == line && raw + ps[..0] == raw;
    } else {
      assert LF !in line[..m + 1];
      ForcedSplit(m, Split(raw, []), line, m);
      assert [] + line[..m] == line[..m];
      FeedLine(m, raw + [line[..m]], line[m..]);
      var qs := Pieces(m, line[m..]);
      assert ps[..|ps| - 1] == [line[..m]] + qs[..|qs| - 1];
      assert raw + [line[..m]] + qs[..|qs| - 1] == raw + ps[..|ps| - 1];
    }
  }

  lemma {:induction false} LinesHead(s: Bytes)
    ensures var l := Lines(s);
            && LF !in l[0]
            && |l[0]| <= |s| && l[0] == s[..|l[0]|]
            && (|l| == 1 ==> l[0] == s)
            && (|l| > 1 ==> |l[0]| < |s| && s[|l[0]|] == LF && l[1..] == Lines(s[|l[0]| + 1..]))
  {
    if s != [] {
      LinesHead(s[1..]);
      var l, r := Lines(s), Lines(s[1..]);
      if s[0] != LF {
        assert l[0] == [s[0]] + r[0];
        if |l| > 1 {
          assert s[1..][|r[0]| + 1..] == s[|l[0]| + 1..];
        }
      }
    }
  }

  /** A first line that a newline ends is cut into its pieces, and the buffer is empty again. */
  lemma FeedFirstLine(m: nat, raw: seq<Bytes>, s: Bytes, line: Bytes)
    requires 0 < m && LF !in line && |line| < |s| && line == s[..|line|] && s[|line|] == LF
    ensures Feed(m, Split(raw, []), s) == Feed(m, Split(raw + Pieces(m, line), []), s[|line| + 1..])
  {
    var n, h := |line|, Pieces(m, line);
    assert s == line + s[n..];
    FeedConcat(m, Split(raw, []), line, s[n..]);
    FeedLine(m, raw, line);
    assert raw + h[..|h| - 1] + [h[|h| - 1]] == raw + h;
    assert s[n..][1..] == s[n + 1..];
  }

  /** All pieces but the last of a first line and more lines. */
  lemma PiecesOfMore(m: nat, raw: seq<Bytes>, lines: seq<Bytes>)
    requires 0 < m && |lines| > 1 && |AllPieces(m, lines[1..])| > 0
    ensures var ps, t := AllPieces(m, lines), AllPieces(m, lines[1..]);
            && |ps| > 0 && ps[|ps| - 1] == t[|t| - 1]
            && raw + ps[..|ps| - 1] == raw + Pieces(m, lines[0]) + t[..|t| - 1]
  {
    var h, t := Pieces(m, lines[0]), AllPieces(m, lines[1..]);
    hide Pieces;
    assert AllPieces(m, lines) == h + t;
    assert (h + t)[..|h + t| - 1] == h + t[..|t| - 1];
  }

  /** Main shape result: from an empty splitter, the pieces after any input are the pieces of its
      lines in order, except that the very last piece is still in the buffer. */
  lemma {:induction false} FeedIsPiecesOfLines(m: nat, raw: seq<Bytes>, s: Bytes)
    requires 0 < m
    ensures var ps := AllPieces(m, Lines(s));
            && |ps| > 0
            && Feed(m, Split(raw, []), s) == Split(raw + ps[..|ps| - 1], ps[|ps| - 1])
    decreases |s|
  {
    var l := Lines(s);
    LinesHead(s);
    if |l| == 1 {
      FeedLine(m, raw, s);
      assert AllPieces(m, l[1..]) == [];
      assert AllPieces(m, l) == Pieces(m, s);
    } else {
      hide Feed, Lines, Pieces, AllPieces;
      FeedFirstLine(m, raw, s, l[0]);
      FeedIsPiecesOfLines(m, raw + Pieces(m, l[0]), s[|l[0]| + 1..]);
      PiecesOfMore(m, raw, l);
    }
  }

  // ---------- Bounds and conservation ----------

  ghost predicate Bounded(m: nat, s: Split) {
    && |s.buf| <= m && LF !in s.buf
    && forall i :: 0 <= i < |s.raw| ==> |s.raw[i]| <= m && LF !in s.raw[i]
  }

  lemma {:induction false} FeedBounded(m: nat, s: Split, p: Bytes)
    requires 0 < m && Bounded(m, s)
    ensures Bounded(m, Feed(m, s, p))
    decreases |p|
  {
    if p != [] {
      FeedBounded(m, Step(m, s, p[0]), p[1..]);
    }
  }

  lemma {:induction false} TrimCRShape(line: Bytes)
    ensures var t := TrimCR(line);
            && |t| <= |line| && t == line[..|t|]
            && (forall i :: |t| <= i < |line| ==> line[i] == CR)
            && (t != [] ==> t[|t| - 1] != CR)
  {
    if line != [] && line[|line| - 1] == CR {
      TrimCRShape(line[..|line| - 1]);
    }
  }

  /** No log entry is empty, longer than `m`, contains a newline or ends in a carriage return. */
  lemma {:induction false} EntriesAreClean(m: nat, raw: seq<Bytes>)
    requires forall i :: 0 <= i < |raw| ==> |raw[i]| <= m && LF !in raw[i]
    ensures forall e :: e in Entries(raw) ==> 0 < |e| <= m && LF !in e && e[|e| - 1] != CR
  {
    if raw != [] {
      var last := raw[|raw| - 1];
      EntriesAreClean(m, raw[..|raw| - 1]);
      TrimCRShape(last);
    }
  }

  /** What any input is logged as: clean entries of at most `m` bytes. */
  lemma LoggedEntriesAreClean(m: nat, p: Bytes)
    requires 0 < m
    ensures forall e :: e in Entries(Finish(Feed(m, EMPTY, p)).raw) ==> 0 < |e| <= m && LF !in e && e[|e| - 1] != CR
  {
    FeedBounded(m, EMPTY, p);
    EntriesAreClean(m, Finish(Feed(m, EMPTY, p)).raw);
  }

  /** The bytes of `s` other than CR and LF. */
  function Text(s: Bytes): Bytes {
    if s == [] then []
    else Text(s[..|s| - 1]) + if s[|s| - 1] == CR || s[|s| - 1] == LF then [] else [s[|s| - 1]]
  }

  lemma {:induction false} TextConcat(a: Bytes, b: Bytes)
    ensures Text(a + b) == Text(a) + Text(b)
    decreases |b|
  {
    if b == [] {
      assert a + b == a;
    } else {
      assert (a + b)[..|a + b| - 1] == a + b[..|b| - 1];
      TextConcat(a, b[..|b| - 1]);
    }
  }

  lemma {:induction false} TextTrim(line: Bytes)
    ensures Text(TrimCR(line)) == Text(line)
  {
    if line != [] && line[|line| - 1] == CR {
      TextTrim(line[..|line| - 1]);
    }
  }

  lemma {:induction false} ConcatSnoc(chunks: seq<Bytes>, c: Bytes)
    ensures Concat(chunks + [c]) == Concat(chunks) + c
  {
    if chunks == [] {
      assert chunks + [c] == [c];
      assert Concat([c]) == c + Concat([]);
    } else {
      assert (chunks + [c])[1..] == chunks[1..] + [c];
      ConcatSnoc(chunks[1..], c);
    }
  }

  lemma {:induction false} EntriesKeepText(raw: seq<Bytes>)
    ensures Text(Concat(Entries(raw))) == Text(Concat(raw))
  {
    if raw != [] {
      var init, last := raw[..|raw| - 1], raw[|raw| - 1];
      EntriesKeepText(init);
      assert raw == init + [last];
      ConcatSnoc(init, last);
      TextConcat(Concat(init), last);
      TextTrim(last);
      if TrimCR(last) != [] {
        ConcatSnoc(Entries(init), TrimCR(last));
        TextConcat(Concat(Entries(init)), TrimCR(last));
      } else {
        assert Entries(raw) == Entries(init);
      }
    }
  }

  /** Everything the splitter holds, in order. */
  function Held(s: Split): Bytes {
    Concat(s.raw) + s.buf
  }

  lemma StepKeepsText(m: nat, s: Split, b: byte)
    ensures Text(Held(Step(m, s, b))) == Text(Held(s) + [b])
  {
    var s' := Step(m, s, b);
    assert (Held(s) + [b])[..|Held(s)|] == Held(s);
    if s'.raw != s.raw {
      ConcatSnoc(s.raw, s.buf);
    }
    if b == LF {
      assert Held(s') == Held(s);
    } else {
      assert Held(s') == Held(s) + [b];
    }
  }

  lemma {:induction false} FeedKeepsText(m: nat, s: Split, p: Bytes)
    ensures Text(Held(Feed(m, s, p))) == Text(Held(s) + p)
    decreases |p|
  {
    if p == [] {
      assert Held(s) + p == Held(s);
    } else {
      var s' := Step(m, s, p[0]);
      StepKeepsText(m, s, p[0]);
      FeedKeepsText(m, s', p[1..]);
      TextConcat(Held(s'), p[1..]);
      TextConcat(Held(s) + [p[0]], p[1..]);
      assert Held(s) + [p[0]] + p[1..] == Held(s) + p;
    }
  }

  lemma FinishKeepsHeld(s: Split)
    ensures Held(Finish(s)) == Held(s) && Finish(s).buf == []
  {
    if s.buf != [] {
      ConcatSnoc(s.raw, s.buf);
    } else {
      assert Held(s) == Concat(s.raw);
    }
  }

  /** At the end of the input nothing is left behind: every byte other than CR and LF is logged, in order. */
  lemma ConservationAtEnd(m: nat, p: Bytes)
    ensures Text(Concat(Entries(Finish(Feed(m, EMPTY, p)).raw))) == Text(p)
  {
    var t := Feed(m, EMPTY, p);
    FeedKeepsText(m, EMPTY, p);
    FinishKeepsHeld(t);
    EntriesKeepText(Finish(t).raw);
    assert Held(EMPTY) + p == p;
    assert Held(Finish(t)) == Concat(Finish(t).raw);
  }

  /** Conservation: whatever the input, every byte other than CR and LF is in exactly one place, in
      order: in a log entry or still in the buffer. */
  lemma Conservation(m: nat, p: Bytes)
    ensures var t := Feed(m, EMPTY, p);
            Text(Concat(Entries(t.raw))) + Text(t.buf) == Text(p)
  {
    var t := Feed(m, EMPTY, p);
    FeedKeepsText(m, EMPTY, p);
    TextConcat(Concat(t.raw), t.buf);
    EntriesKeepText(t.raw);
    assert Held(EMPTY) + p == p;
  }
}
