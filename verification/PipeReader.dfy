/** Splitting a piped process's output into messages (PipeReader::Poll in DebugViewppLib/PipeReader.cpp).

    Poll scans a 4096 byte buffer in place, over whatever the pipe delivers per read.  FeedAll is the
    same splitting one byte at a time; Poll computes it however the bytes were divided into reads. */
module PipeReading {

  const BUFFER_SIZE := 4096
  const MAX_OFFSET := 4000

  /** The messages so far and the text of the line not finished yet. */
  datatype Split = Split(messages: seq<string>, rest: string)

  predicate Delimiter(b: char) {
    b == '\0' || b == '\n'
  }

  function Feed(f: Split, b: char): Split {
    if Delimiter(b) || |f.rest| > MAX_OFFSET then Split(f.messages + [f.rest], "") else f.(rest := f.rest + [b])
  }

  function FeedAll(f: Split, bytes: string): Split {
    if bytes == "" then f else Feed(FeedAll(f, bytes[..|bytes| - 1]), bytes[|bytes| - 1])
  }

  function Join(parts: seq<string>): string {
    if parts == [] then "" else parts[0] + Join(parts[1..])
  }

  predicate OneLine(s: string) {
    forall i :: 0 <= i < |s| ==> !Delimiter(s[i])
  }

  /** A remainder holds no delimiter and at most 4001 bytes. */
  predicate Tidy(rest: string) {
    |rest| <= MAX_OFFSET + 1 && OneLine(rest)
  }

  lemma TidyIs(rest: string)
    ensures Tidy(rest) <==> |rest| <= 4001 && '\0' !in rest && '\n' !in rest
  {
    assert OneLine(rest) <==> '\0' !in rest && '\n' !in rest by {
      if '\0' !in rest && '\n' !in rest {
        assert forall i :: 0 <= i < |rest| ==> rest[i] in rest;
      }
    }
  }

  // ----- dividing the stream -----

  lemma {:induction false} FeedConcat(f: Split, a: string, b: string)
    ensures FeedAll(f, a + b) == FeedAll(FeedAll(f, a), b)
  {
    if b == "" {
      assert a + b == a;
    } else {
      var n := |b| - 1;
      FeedConcat(f, a, b[..n]);
      assert (a + b)[..|a| + n] == a + b[..n];
    }
  }

  lemma FeedNext(f: Split, bytes: string, n: nat)
    requires n < |bytes|
    ensures FeedAll(f, bytes[..n + 1]) == Feed(FeedAll(f, bytes[..n]), bytes[n])
  {
    assert bytes[..n + 1][..n] == bytes[..n];
  }

  lemma {:induction false} FeedTidy(f: Split, bytes: string)
    requires Tidy(f.rest)
    ensures Tidy(FeedAll(f, bytes).rest)
  {
    if bytes != "" {
      FeedTidy(f, bytes[..|bytes| - 1]);
    }
  }

  /** What a series of polls makes of their reads. */
  function AfterPolls(f: Split, polls: seq<seq<string>>): Split
    decreases polls
  {
    if polls == [] then f else AfterPolls(FeedAll(f, Join(polls[0])), polls[1..])
  }

  function Stream(polls: seq<seq<string>>): string {
    if polls == [] then "" else Join(polls[0]) + Stream(polls[1..])
  }

  lemma {:induction false} PollsAreOneStream(f: Split, polls: seq<seq<string>>)
    ensures AfterPolls(f, polls) == FeedAll(f, Stream(polls))
    decreases polls
  {
    if polls != [] {
      PollsAreOneStream(FeedAll(f, Join(polls[0])), polls[1..]);
      FeedConcat(f, Join(polls[0]), Stream(polls[1..]));
    }
  }

  /** The messages and the remainder do not depend on how the stream was divided. */
  lemma ChunkingIrrelevant(f: Split, polls: seq<seq<string>>, polls': seq<seq<string>>)
    requires Stream(polls) == Stream(polls')
    ensures AfterPolls(f, polls) == AfterPolls(f, polls')
  {
    PollsAreOneStream(f, polls);
    PollsAreOneStream(f, polls');
  }

  // ----- nothing is lost -----

  /** Each message followed by the byte consumed at its cut, then the remainder. */
  function Weave(messages: seq<string>, cuts: string, rest: string): string
    requires |messages| == |cuts|
  {
    if messages == [] then rest
    else
      var n := |messages| - 1;
      Weave(messages[..n], cuts[..n], messages[n]) + [cuts[n]] + rest
  }

  lemma {:induction false} WeaveExtends(messages: seq<string>, cuts: string, rest: string, b: char)
    requires |messages| == |cuts|
    ensures Weave(messages, cuts, rest + [b]) == Weave(messages, cuts, rest) + [b]
  {
    if messages != [] {
      var n := |messages| - 1;
      var front := Weave(messages[..n], cuts[..n], messages[n]) + [cuts[n]];
      assert front + (rest + [b]) == front + rest + [b];
    }
  }

  lemma WeaveCut(messages: seq<string>, cuts: string, rest: string, b: char)
    requires |messages| == |cuts|
    ensures Weave(messages + [rest], cuts + [b], "") == Weave(messages, cuts, rest) + [b]
  {
    assert (messages + [rest])[..|messages|] == messages && (cuts + [b])[..|cuts|] == cuts;
  }

  /** Every byte of the stream is in a message, in the remainder, or is the one byte consumed at a cut;
      a cut is made at a delimiter or behind 4001 bytes, and nowhere else. */
  lemma {:induction false} EveryByteAccounted(bytes: string) returns (cuts: string)
    ensures var f := FeedAll(Split([], ""), bytes);
      && |cuts| == |f.messages|
      && Weave(f.messages, cuts, f.rest) == bytes
      && Tidy(f.rest)
      && forall i :: 0 <= i < |cuts| ==>
           Tidy(f.messages[i]) && (Delimiter(cuts[i]) || |f.messages[i]| == MAX_OFFSET + 1)
  {
    cuts := "";
    if bytes != "" {
      var n := |bytes| - 1;
      var b := bytes[n];
      cuts := EveryByteAccounted(bytes[..n]);
      var f := FeedAll(Split([], ""), bytes[..n]);
      if Delimiter(b) || |f.rest| > MAX_OFFSET {
        WeaveCut(f.messages, cuts, f.rest, b);
        cuts := cuts + [b];
      } else {
        WeaveExtends(f.messages, cuts, f.rest, b);
      }
      assert bytes == bytes[..n] + [b];
    }
  }

  // ----- the reader -----

  /** Every read fits into what the buffer has free at its turn. */
  predicate Fits(rest: string, chunks: seq<string>)
    decreases chunks
  {
    chunks == [] || (|rest| + |chunks[0]| <= BUFFER_SIZE && Fits(FeedAll(Split([], rest), chunks[0]).rest, chunks[1..]))
  }

  lemma {:induction false} RestOnly(f: Split, bytes: string)
    ensures FeedAll(f, bytes).rest == FeedAll(Split([], f.rest), bytes).rest
  {
    if bytes != "" {
      RestOnly(f, bytes[..|bytes| - 1]);
    }
  }

  /** At least 95 bytes are free before every read. */
  lemma {:induction false} ShortReadsFit(rest: string, chunks: seq<string>)
    requires Tidy(rest) && forall r :: r in chunks ==> |r| <= BUFFER_SIZE - MAX_OFFSET - 1
    ensures Fits(rest, chunks) && BUFFER_SIZE - MAX_OFFSET - 1 == 95
    decreases chunks
  {
    if chunks != [] {
      FeedTidy(Split([], rest), chunks[0]);
      ShortReadsFit(FeedAll(Split([], rest), chunks[0]).rest, chunks[1..]);
    }
  }

  class PipeReader {
    var buffer: string        // the unfinished line, kept between polls
    var messages: seq<string> // the texts passed to AddMessage

    function State(): Split
      reads this
    {
      Split(messages, buffer)
    }

    constructor ()
      ensures State() == Split([], "")
    {
      buffer, messages := "", [];
    }

    /** chunks are what ReadFile delivers until the pipe is empty. */
    method Poll(chunks: seq<string>)
      requires Tidy(buffer) && Fits(buffer, chunks)
      modifies this
      ensures State() == FeedAll(old(State()), Join(chunks))
      ensures Tidy(buffer)
    {
      var buf := new char[BUFFER_SIZE];
      ghost var first := State();
      Receive(buf, 0, buffer);
      assert buf[..|buffer|] == buffer && chunks[0..] == chunks;
      var start := |buffer|;
      assert FeedAll(first, Join(chunks[..0])) == first;
      for k := 0 to |chunks|
        invariant 0 <= start <= BUFFER_SIZE && Fits(buf[..start], chunks[k..])
        invariant Split(messages, buf[..start]) == FeedAll(first, Join(chunks[..k]))
      {
        ghost var before := Split(messages, buf[..start]);
        assert chunks[k..][0] == chunks[k] && chunks[k..][1..] == chunks[k + 1..];
        RestOnly(before, chunks[k]);
        start := ScanRead(buf, start, chunks[k]);
        JoinLast(chunks, k);
        FeedConcat(first, Join(chunks[..k]), chunks[k]);
      }
      assert chunks[..|chunks|] == chunks;
      FeedTidy(first, Join(chunks));
      buffer := buf[..start];
    }

    /** One read behind the first start bytes, scanned and moved to the front of the buffer. */
    method ScanRead(buf: array<char>, start: nat, read: string) returns (newStart: nat)
      requires buf.Length == BUFFER_SIZE && start + |read| <= BUFFER_SIZE
      modifies buf, this`messages
      ensures newStart <= BUFFER_SIZE
      ensures Split(messages, buf[..newStart]) == FeedAll(Split(old(messages), old(buf[..start])), read)
    {
      ghost var before := Split(messages, buf[..start]);
      Receive(buf, start, read);
      var begin, p, end := 0, start, start + |read|;
      ghost var line := buf[..end];
      assert line[0..start] == before.rest;
      while p != end
        invariant p <= end
        invariant Scanned(before, line, start, begin, p, messages)
        modifies this`messages
      {
        ScanStep(before, line, start, begin, p, messages);
        assert buf[p] == line[p] && buf[begin..p] == line[begin..p];
        if buf[p] == '\0' || buf[p] == '\n' || p - begin > MAX_OFFSET {
          messages := messages + [buf[begin..p]];
          begin := p + 1;
        }
        p := p + 1;
      }
      ScanEnds(before, line, start, begin, messages, read);
      newStart := end - begin;
      ghost var unfinished := line[begin..end];
      assert buf[begin..end] == unfinished;
      MoveToFront(buf, begin, end);
      assert buf[..newStart] == unfinished;
    }
  }

  lemma {:induction false} JoinLast(chunks: seq<string>, k: nat)
    requires k < |chunks|
    ensures Join(chunks[..k + 1]) == Join(chunks[..k]) + chunks[k]
  {
    if k == 0 {
      assert chunks[..1] == [chunks[0]];
    } else {
      JoinLast(chunks[1..], k - 1);
      assert chunks[..k + 1][1..] == chunks[1..][..k] && chunks[..k][1..] == chunks[1..][..k - 1];
      assert chunks[0] + (Join(chunks[1..][..k - 1]) + chunks[k]) == chunks[0] + Join(chunks[1..][..k - 1]) + chunks[k];
    }
  }

  /** The scan of line from start has reached p; the unfinished line starts at begin. */
  ghost predicate Scanned(before: Split, line: string, start: nat, begin: nat, p: nat, messages: seq<string>) {
    && begin <= p <= |line| && start <= p
    && Split(messages, line[begin..p]) == FeedAll(before, line[start..p])
  }

  lemma ScanEnds(before: Split, line: string, start: nat, begin: nat, messages: seq<string>, read: string)
    requires Scanned(before, line, start, begin, |line|, messages) && line[start..] == read
    ensures Split(messages, line[begin..]) == FeedAll(before, read)
  {
    assert line[begin..|line|] == line[begin..] && line[start..|line|] == read;
  }

  lemma ScanStep(before: Split, line: string, start: nat, begin: nat, p: nat, messages: seq<string>)
    requires Scanned(before, line, start, begin, p, messages) && p < |line|
    ensures if Delimiter(line[p]) || p - begin > MAX_OFFSET
            then Scanned(before, line, start, p + 1, p + 1, messages + [line[begin..p]])
            else Scanned(before, line, start, begin, p + 1, messages)
  {
    FeedNext(before, line[start..], p - start);
    assert line[start..][..p - start] == line[start..p] && line[start..][..p + 1 - start] == line[start..p + 1];
    assert line[begin..p + 1] == line[begin..p] + [line[p]];
  }

  /** ReadFile. */
  method Receive(buf: array<char>, start: nat, read: string)
    requires start + |read| <= buf.Length
    modifies buf
    ensures buf[..start + |read|] == old(buf[..start]) + read
  {
    for i := 0 to |read|
      invariant buf[..start + i] == old(buf[..start]) + read[..i]
    {
      buf[start + i] := read[i];
      assert buf[..start + i + 1] == buf[..start + i] + [read[i]];
    }
  }

  /** std::copy to the front of the same buffer. */
  method MoveToFront(buf: array<char>, begin: nat, end: nat)
    requires begin <= end <= buf.Length
    modifies buf
    ensures buf[..end - begin] == old(buf[begin..end])
  {
    ghost var was := buf[..];
    for i := 0 to end - begin
      invariant forall j :: 0 <= j < i ==> buf[j] == was[begin + j]
      invariant forall j :: i <= j < buf.Length ==> buf[j] == was[j]
    {
      buf[i] := buf[begin + i];
    }
    assert buf[..end - begin] == was[begin..end];
  }
}
