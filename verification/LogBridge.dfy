/** Turning the gateway's byte stream into log lines (desktop-app/gateway_log_bridge.go). */
module LogBridge {
  type Bytes = seq<bv8>
  const LF: bv8 := 10
  const CR: bv8 := 13

  // ---- the lines of a stream ----

  predicate Unbroken(s: Bytes) { LF !in s }

  /** The complete lines of a stream and the unterminated rest, given back as they were. */
  function Joined(lines: seq<Bytes>, rest: Bytes): Bytes {
    if lines == [] then rest else lines[0] + [LF] + Joined(lines[1..], rest)
  }

  function FirstLf(s: Bytes): (i: nat)
    ensures i <= |s|
  {
    if s == [] || s[0] == LF then 0 else 1 + FirstLf(s[1..])
  }

  lemma {:induction false} FirstLfMeaning(s: Bytes)
    ensures Unbroken(s[..FirstLf(s)]) && (FirstLf(s) < |s| ==> s[FirstLf(s)] == LF)
  {
    if s != [] && s[0] != LF {
      FirstLfMeaning(s[1..]);
      assert s[..FirstLf(s)] == [s[0]] + s[1..][..FirstLf(s[1..])];
    }
  }

  function Lines(s: Bytes): seq<Bytes>
    decreases |s|
  {
    var i := FirstLf(s);
    if i == |s| then [] else [s[..i]] + Lines(s[i + 1..])
  }

  function Rest(s: Bytes): Bytes
    decreases |s|
  {
    var i := FirstLf(s);
    if i == |s| then s else Rest(s[i + 1..])
  }

  /** One line off the front. */
  lemma {:induction false} LinesStep(s: Bytes)
    ensures var i := FirstLf(s);
      if i == |s| then Lines(s) == [] && Rest(s) == s
      else Lines(s) == [s[..i]] + Lines(s[i + 1..]) && Rest(s) == Rest(s[i + 1..])
  {
    hide FirstLf, Lines, Rest;
    LinesOnce(s, FirstLf(s));
    RestOnce(s, FirstLf(s));
  }

  lemma {:induction false} LinesOnce(s: Bytes, i: nat)
    requires i == FirstLf(s)
    ensures Lines(s) == if i == |s| then [] else [s[..i]] + Lines(s[i + 1..])
  {
    hide FirstLf;
  }

  lemma {:induction false} RestOnce(s: Bytes, i: nat)
    requires i == FirstLf(s)
    ensures Rest(s) == if i == |s| then s else Rest(s[i + 1..])
  {
    hide FirstLf;
  }

  /** Splitting loses nothing: the lines and the rest make up the stream. */
  lemma {:induction false} SplitJoins(s: Bytes)
    ensures Joined(Lines(s), Rest(s)) == s
    ensures Unbroken(Rest(s)) && forall k :: 0 <= k < |Lines(s)| ==> Unbroken(Lines(s)[k])
    decreases |s|
  {
    hide FirstLf, Lines, Rest;
    var i := FirstLf(s);
    FirstLfMeaning(s);
    LinesStep(s);
    if i == |s| {
      assert s[..i] == s;
    } else {
      SplitJoins(s[i + 1..]);
      assert s == s[..i] + [LF] + s[i + 1..];
      assert Lines(s)[1..] == Lines(s[i + 1..]);
    }
  }

  /** And it is the only way to read the stream as unbroken lines and an unbroken rest. */
  lemma {:induction false} SplitIsUnique(lines: seq<Bytes>, rest: Bytes)
    requires Unbroken(rest) && forall k :: 0 <= k < |lines| ==> Unbroken(lines[k])
    ensures Lines(Joined(lines, rest)) == lines && Rest(Joined(lines, rest)) == rest
    decreases |lines|
  {
    hide FirstLf, Lines, Rest;
    var s := Joined(lines, rest);
    LinesStep(s);
    if lines == [] {
      FirstLfIs(s, |s|);
    } else {
      FirstLfIs(s, |lines[0]|);
      assert s[..|lines[0]|] == lines[0] && s[|lines[0]| + 1..] == Joined(lines[1..], rest);
      SplitIsUnique(lines[1..], rest);
    }
  }

  lemma {:induction false} FirstLfIs(s: Bytes, i: nat)
    requires i <= |s| && (forall k :: 0 <= k < i ==> s[k] != LF) && (i < |s| ==> s[i] == LF)
    ensures FirstLf(s) == i
  {
    if i > 0 {
      FirstLfIs(s[1..], i - 1);
    }
  }

  lemma {:induction false} JoinedSum(a: seq<Bytes>, b: seq<Bytes>, rest: Bytes)
    ensures Joined(a + b, rest) == Joined(a, Joined(b, rest))
    decreases |a|
  {
    if a == [] {
      assert a + b == b;
    } else {
      assert (a + b)[1..] == a[1..] + b;
      JoinedSum(a[1..], b, rest);
    }
  }

  lemma {:induction false} JoinedPrefix(a: seq<Bytes>, rest: Bytes, more: Bytes)
    ensures Joined(a, rest + more) == Joined(a, rest) + more
    decreases |a|
  {
    if a != [] {
      JoinedPrefix(a[1..], rest, more);
    }
  }

  /** Reading on from the unterminated rest gives what reading everything at once gives. */
  lemma {:induction false} SplitOfSum(s: Bytes, p: Bytes)
    ensures Lines(s + p) == Lines(s) + Lines(Rest(s) + p)
    ensures Rest(s + p) == Rest(Rest(s) + p)
  {
    hide Lines, Rest, Joined;
    var more := Rest(s) + p;
    var lines := Lines(s) + Lines(more);
    SplitJoins(s);
    SplitJoins(more);
    JoinedSum(Lines(s), Lines(more), Rest(more));
    JoinedPrefix(Lines(s), Rest(s), p);
    SplitIsUnique(lines, Rest(more));
  }

  // ---- what is emitted ----

  function WithoutCr(line: Bytes): Bytes {
    if line != [] && line[|line| - 1] == CR then line[..|line| - 1] else line
  }

  function Emitted(lines: seq<Bytes>): seq<Bytes> {
    if lines == [] then []
    else
      var line := WithoutCr(lines[|lines| - 1]);
      Emitted(lines[..|lines| - 1]) + if line == [] then [] else [line]
  }

  lemma {:induction false} EmittedSum(a: seq<Bytes>, b: seq<Bytes>)
    ensures Emitted(a + b) == Emitted(a) + Emitted(b)
    decreases |b|
  {
    if b == [] {
      assert a + b == a;
    } else {
      EmittedSum(a, b[..|b| - 1]);
      assert (a + b)[..|a + b| - 1] == a + b[..|b| - 1];
    }
  }

  /** Of the line end only one carriage return goes, and a line that is blank then is not emitted. */
  lemma EmittedMeaning(line: Bytes)
    ensures Emitted([]) == []
    ensures Emitted([line + [CR]]) == if line == [] then [] else [line]
    ensures line == [] || line[|line| - 1] != CR ==> Emitted([line]) == if line == [] then [] else [line]
  {
    assert [line][..0] == [] && [line + [CR]][..0] == [];
    assert (line + [CR])[..|line|] == line;
  }

  /** Lines as a writer ends them, with a carriage return where `crs` says so. */
  function Ended(lines: seq<Bytes>, crs: seq<bool>): (r: seq<Bytes>)
    requires |lines| == |crs|
    ensures |r| == |lines|
  {
    seq(|lines|, k requires 0 <= k < |lines| => if crs[k] then lines[k] + [CR] else lines[k])
  }

  /** Lines a writer can mean: unbroken, and ending in a carriage return only if another one follows. */
  predicate Meant(lines: seq<Bytes>, crs: seq<bool>) {
    |lines| == |crs| && forall k :: 0 <= k < |lines| ==>
      && lines[k] != [] && Unbroken(lines[k])
      && (crs[k] || lines[k][|lines[k]| - 1] != CR)
  }

  lemma {:induction false} EndedEmits(lines: seq<Bytes>, crs: seq<bool>)
    requires Meant(lines, crs)
    ensures Emitted(Ended(lines, crs)) == lines
    decreases |lines|
  {
    hide WithoutCr, Emitted, Unbroken;
    EmittedMeaning([]);
    if lines == [] {
      assert Ended(lines, crs) == [];
    } else {
      var n := |lines| - 1;
      EndedEmits(lines[..n], crs[..n]);
      assert Ended(lines, crs) == Ended(lines[..n], crs[..n]) + [Ended(lines, crs)[n]];
      EmittedSum(Ended(lines[..n], crs[..n]), [Ended(lines, crs)[n]]);
      EmittedMeaning(lines[n]);
    }
  }

  /** Blank lines vanish, wherever they stand. */
  lemma {:induction false} BlankLinesVanish(a: seq<Bytes>, blank: Bytes, b: seq<Bytes>)
    requires blank == [] || blank == [CR]
    ensures Emitted(a + [blank] + b) == Emitted(a + b)
  {
    hide Emitted;
    EmittedSum(a + [blank], b);
    EmittedSum(a, [blank]);
    EmittedSum(a, b);
    EmittedMeaning([]);
    assert [] + [CR] == [CR];
  }

  /** The bridge emits the lines of what has been written, so far as they are complete. */
  class GatewayLogBridge {
    var buf: Bytes
    var emitted: seq<Bytes>
    ghost var written: Bytes

    constructor ()
      ensures Valid() && written == []
    {
      buf, emitted, written := [], [], [];
    }

    /** The buffer is always the unterminated tail of the stream, and the emitted lines depend on
        the bytes of the stream alone. */
    ghost predicate Valid()
      reads this
    {
      buf == Rest(written) && emitted == Emitted(Lines(written))
    }

    method IndexByte() returns (index: int)
      ensures index == if FirstLf(buf) == |buf| then -1 else FirstLf(buf)
    {
      index := 0;
      while index < |buf|
        invariant 0 <= index <= |buf| && forall k :: 0 <= k < index ==> buf[k] != LF
      {
        if buf[index] == LF {
          FirstLfIs(buf, index);
          return;
        }
        index := index + 1;
      }
      FirstLfIs(buf, |buf|);
      index := -1;
    }

    method Extract() returns (lines: seq<Bytes>)
      modifies this`buf
      ensures buf == Rest(old(buf)) && lines == Lines(old(buf))
    {
      hide Lines, Rest;
      lines := [];
      var index := IndexByte();
      LinesStep(buf);
      while index >= 0
        invariant index == if FirstLf(buf) == |buf| then -1 else FirstLf(buf)
        invariant index < 0 ==> Lines(buf) == [] && Rest(buf) == buf
        invariant index >= 0 ==> Lines(buf) == [buf[..index]] + Lines(buf[index + 1..])
        invariant index >= 0 ==> Rest(buf) == Rest(buf[index + 1..])
        invariant Rest(buf) == Rest(old(buf)) && lines + Lines(buf) == Lines(old(buf))
        decreases |buf|
      {
        lines := lines + [buf[..index]];
        buf := buf[index + 1..];
        LinesStep(buf);
        index := IndexByte();
      }
    }

    method Write(p: Bytes) returns (n: nat)
      requires Valid()
      modifies this
      ensures Valid() && written == old(written) + p && n == |p|
      ensures Stream(emitted, buf) == After(old(Stream(emitted, buf)), [p])
    {
      hide Lines, Rest, WithoutCr, Joined;
      buf := buf + p;
      ghost var whole := buf;
      var lines := Extract();
      for k := 0 to |lines|
        invariant buf == Rest(whole) && lines == Lines(whole) && written == old(written)
        invariant emitted == old(emitted) + Emitted(lines[..k])
      {
        assert lines[..k + 1][..k] == lines[..k];
        var line := WithoutCr(lines[k]);
        if line != [] {
          emitted := emitted + [line];
        }
      }
      assert lines[..|lines|] == lines;
      SplitOfSum(written, p);
      EmittedSum(Lines(written), lines);
      written := written + p;
      n := |p|;
    }
  }

  // ---- writes in a row ----

  /** What has been emitted, and the tail kept: the effect of Write on them. */
  datatype Stream = Stream(emitted: seq<Bytes>, buf: Bytes)

  function After(s: Stream, chunks: seq<Bytes>): Stream
    decreases |chunks|
  {
    if chunks == [] then s
    else
      var whole := s.buf + chunks[0];
      After(Stream(s.emitted + Emitted(Lines(whole)), Rest(whole)), chunks[1..])
  }

  function Concat(chunks: seq<Bytes>): Bytes {
    if chunks == [] then [] else chunks[0] + Concat(chunks[1..])
  }

  /** However a stream is cut into writes, the same lines come out and the same tail stays. */
  lemma {:induction false} ChunkingDoesNotMatter(before: Bytes, chunks: seq<Bytes>)
    ensures After(Stream(Emitted(Lines(before)), Rest(before)), chunks)
      == Stream(Emitted(Lines(before + Concat(chunks))), Rest(before + Concat(chunks)))
    decreases |chunks|
  {
    hide Lines, Rest, Emitted;
    if chunks == [] {
      assert before + Concat(chunks) == before;
    } else {
      SplitOfSum(before, chunks[0]);
      EmittedSum(Lines(before), Lines(Rest(before) + chunks[0]));
      ChunkingDoesNotMatter(before + chunks[0], chunks[1..]);
      assert before + Concat(chunks) == before + chunks[0] + Concat(chunks[1..]);
    }
  }

  /** What a writer ends as lines arrives as lines, whole and in order, however the stream is cut; what
      it has not ended yet waits. */
  lemma {:induction false} LinesArrive(lines: seq<Bytes>, crs: seq<bool>, rest: Bytes, chunks: seq<Bytes>)
    requires Meant(lines, crs) && Unbroken(rest) && Concat(chunks) == Joined(Ended(lines, crs), rest)
    ensures After(Stream([], []), chunks) == Stream(lines, rest)
  {
    hide Emitted;
    var ended := Ended(lines, crs);
    SplitIsUnique(ended, rest);
    EndedEmits(lines, crs);
    EmittedMeaning([]);
    LinesStep([]);
    assert [] + Concat(chunks) == Concat(chunks);
    ChunkingDoesNotMatter([], chunks);
  }
}
