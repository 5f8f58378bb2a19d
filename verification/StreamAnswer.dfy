/** The answer stream of the chat panel: `data:` lines parsed as chunks of text arrive. */
module StreamAnswer {
  import opened Common

  const DATA := "data:"
  const END_OF_STREAM := "[DONE]"

  /** What `JSON.parse` makes of a payload; `None` when it throws. */
  datatype Event = Failed(errorText: string) | TextDelta(delta: string) | OtherEvent | NullEvent

  type Parse = string -> Option<Event>

  /** What one line gives: text, nothing, or the end of the stream as a failure. */
  datatype Verdict = Text(delta: string) | Silent | Fails(reason: Failure)

  /** Why the stream failed: a payload that does not parse, with its first characters, an error the
      endpoint reports, a payload that is `null`, or an answer without text. */
  datatype Failure = UnexpectedLine(start: string) | StreamError(text: string) | NullPayload | NoText

  /** The deltas yielded, in order, and the failure the stream ended with, if it failed. */
  datatype Answer = Answer(deltas: seq<string>, failure: Option<Failure>)

  /** White space and line terminators, as `trim` takes them off. */
  predicate IsSpace(c: char) {
    var n := c as int;
    0x09 <= n <= 0x0D || n == 0x20 || n == 0xA0 || n == 0x1680 || 0x2000 <= n <= 0x200A || n == 0x2028 || n == 0x2029 ||
    n == 0x202F || n == 0x205F || n == 0x3000 || n == 0xFEFF
  }

  function TrimStart(s: string): string {
    if s != "" && IsSpace(s[0]) then TrimStart(s[1..]) else s
  }

  function TrimEnd(s: string): string {
    if s != "" && IsSpace(s[|s| - 1]) then TrimEnd(s[..|s| - 1]) else s
  }

  function TextOf(payload: string, parse: Parse): Verdict {
    if payload == END_OF_STREAM then Silent
    else match parse(payload)
      case None => Fails(UnexpectedLine(payload[..if |payload| < 80 then |payload| else 80]))
      case Some(event) =>
        match event
        case Failed(errorText) => Fails(StreamError(errorText))
        case NullEvent => Fails(NullPayload)
        case TextDelta(delta) => Text(delta)
        case OtherEvent => Silent
  }

  function VerdictOf(line: string, parse: Parse): Verdict {
    if DATA <= line then TextOf(TrimEnd(TrimStart(line[|DATA|..])), parse) else Silent
  }

  /** Feeds lines until one fails. A line with empty text yields nothing. */
  function Feed(lines: seq<string>, parse: Parse): Answer {
    if lines == [] then Answer([], None)
    else
      match VerdictOf(lines[0], parse)
      case Fails(reason) => Answer([], Some(reason))
      case Text(delta) =>
        var rest := Feed(lines[1..], parse);
        if delta == "" then rest else rest.(deltas := [delta] + rest.deltas)
      case Silent => Feed(lines[1..], parse)
  }

  /** Puts one character before the first of some lines; a newline starts a line of its own. */
  function Before(c: char, lines: seq<string>): (r: seq<string>)
    requires lines != []
    ensures r != []
  {
    if c == '\n' then [""] + lines else [[c] + lines[0]] + lines[1..]
  }

  function Split(text: string): (lines: seq<string>)
    ensures lines != []
  {
    if text == "" then [""] else Before(text[0], Split(text[1..]))
  }

  /** The whole text at once, line by line: the reference the streaming form must agree with. */
  function Whole(text: string, parse: Parse): Answer {
    var a := Feed(Split(text), parse);
    if a.failure.None? && a.deltas == [] then a.(failure := Some(NoText)) else a
  }

  function Joined(chunks: seq<string>): string {
    if chunks == [] then "" else Joined(chunks[..|chunks| - 1]) + chunks[|chunks| - 1]
  }

  lemma BeforeAppend(c: char, a: seq<string>, b: seq<string>)
    requires a != []
    ensures Before(c, a + b) == Before(c, a) + b
  {
    assert (a + b)[1..] == a[1..] + b;
  }

  lemma {:induction false} SplitAtNewline(x: string, y: string)
    ensures Split(x + ['\n'] + y) == Split(x) + Split(y)
  {
    var text := x + ['\n'] + y;
    if x == "" {
      assert text[1..] == y;
    } else {
      assert text[0] == x[0] && text[1..] == x[1..] + ['\n'] + y;
      SplitAtNewline(x[1..], y);
      BeforeAppend(x[0], Split(x[1..]), Split(y));
    }
  }

  lemma {:induction false} FeedAppend(a: seq<string>, b: seq<string>, parse: Parse)
    ensures Feed(a + b, parse) ==
      if Feed(a, parse).failure.Some? then Feed(a, parse)
      else Answer(Feed(a, parse).deltas + Feed(b, parse).deltas, Feed(b, parse).failure)
  {
    if a == [] {
      assert a + b == b;
    } else {
      assert (a + b)[1..] == a[1..] + b;
      FeedAppend(a[1..], b, parse);
      match VerdictOf(a[0], parse)
      case Text(delta) => Shift(delta, Feed(a[1..], parse).deltas, Feed(b, parse).deltas);
      case Silent =>
      case Fails(_) =>
    }
  }

  lemma Shift(delta: string, x: seq<string>, y: seq<string>)
    ensures [delta] + (x + y) == ([delta] + x) + y
  {
  }

  /** Where the last newline of `text` is, or -1. */
  method LastNewline(text: string) returns (at: int)
    ensures -1 <= at < |text|
    ensures at >= 0 ==> text[at] == '\n'
    ensures forall i :: at < i < |text| ==> text[i] != '\n'
  {
    at := |text| - 1;
    while at >= 0 && text[at] != '\n'
      invariant -1 <= at < |text|
      invariant forall i :: at < i < |text| ==> text[i] != '\n'
    {
      at := at - 1;
    }
  }

  /** The text taken off the buffer so far and the lines it was fed as. */
  ghost predicate Consumed(prefix: string, lines: seq<string>) {
    (prefix == "" && lines == []) || exists q: string :: prefix == q + ['\n'] && lines == Split(q)
  }

  lemma ConsumeMore(prefix: string, lines: seq<string>, u: string)
    requires Consumed(prefix, lines)
    ensures Consumed(prefix + u + ['\n'], lines + Split(u))
  {
    if prefix == "" && lines == [] {
      assert prefix + u + ['\n'] == u + ['\n'] && lines + Split(u) == Split(u);
    } else {
      var q :| prefix == q + ['\n'] && lines == Split(q);
      SplitAtNewline(q, u);
      assert prefix + u + ['\n'] == (q + ['\n'] + u) + ['\n'];
    }
  }

  lemma ConsumedSplit(prefix: string, lines: seq<string>, rest: string)
    requires Consumed(prefix, lines)
    ensures Split(prefix + rest) == lines + Split(rest)
  {
    if prefix == "" && lines == [] {
      assert prefix + rest == rest;
    } else {
      var q :| prefix == q + ['\n'] && lines == Split(q);
      SplitAtNewline(q, rest);
    }
  }

  /** A failure in the lines taken so far is the whole text's failure, however the text goes on. */
  lemma FailureIsFinal(prefix: string, lines: seq<string>, rest: string, parse: Parse)
    requires Consumed(prefix, lines) && Feed(lines, parse).failure.Some?
    ensures Whole(prefix + rest, parse) == Feed(lines, parse)
  {
    ConsumedSplit(prefix, lines, rest);
    FeedAppend(lines, Split(rest), parse);
  }

  lemma Regroup(a: string, b: string, c: string)
    ensures (a + b) + c == a + (b + c)
  {
  }

  lemma {:induction false} JoinedSplits(chunks: seq<string>, i: nat)
    requires i <= |chunks|
    ensures Joined(chunks) == Joined(chunks[..i]) + Joined(chunks[i..])
  {
    if i == |chunks| {
      assert chunks[..i] == chunks && Joined(chunks[i..]) == "";
    } else {
      var n := |chunks| - 1;
      JoinedSplits(chunks[..n], i);
      assert chunks[..n][..i] == chunks[..i] && chunks[..n][i..] == chunks[i..][..|chunks[i..]| - 1];
      Regroup(Joined(chunks[..i]), Joined(chunks[..n][i..]), chunks[n]);
    }
  }

  lemma JoinedNext(chunks: seq<string>, i: nat, prefix: string, pending: string)
    requires i < |chunks| && prefix + pending == Joined(chunks[..i])
    ensures prefix + (pending + chunks[i]) == Joined(chunks[..i + 1])
  {
    assert chunks[..i + 1][..i] == chunks[..i];
    assert prefix + (pending + chunks[i]) == (prefix + pending) + chunks[i];
  }

  /** Taking the complete lines off the buffer. */
  lemma TakeComplete(prefix: string, lines: seq<string>, pending: string, complete: nat, parse: Parse)
    requires Consumed(prefix, lines) && Feed(lines, parse).failure.None?
    requires complete < |pending| && pending[complete] == '\n'
    ensures var taken := Split(pending[..complete]);
      && Consumed(prefix + pending[..complete + 1], lines + taken)
      && (prefix + pending[..complete + 1]) + pending[complete + 1..] == prefix + pending
      && Feed(lines + taken, parse) == Answer(Feed(lines, parse).deltas + Feed(taken, parse).deltas, Feed(taken, parse).failure)
  {
    ConsumeMore(prefix, lines, pending[..complete]);
    assert prefix + pending[..complete] + ['\n'] == prefix + pending[..complete + 1];
    FeedAppend(lines, Split(pending[..complete]), parse);
  }

  /** The failure after the first chunks is the answer to all of them. */
  lemma FailedEarly(chunks: seq<string>, i: nat, prefix: string, lines: seq<string>, pending: string, parse: Parse)
    requires i <= |chunks| && prefix + pending == Joined(chunks[..i])
    requires Consumed(prefix, lines) && Feed(lines, parse).failure.Some?
    ensures Whole(Joined(chunks), parse) == Feed(lines, parse)
  {
    var rest := Joined(chunks[i..]);
    JoinedSplits(chunks, i);
    Regroup(prefix, pending, rest);
    FailureIsFinal(prefix, lines, pending + rest, parse);
  }

  lemma Finished(prefix: string, lines: seq<string>, pending: string, parse: Parse)
    requires Consumed(prefix, lines) && Feed(lines, parse).failure.None?
    ensures Feed(Split(prefix + pending), parse) ==
      Answer(Feed(lines, parse).deltas + Feed(Split(pending), parse).deltas, Feed(Split(pending), parse).failure)
  {
    ConsumedSplit(prefix, lines, pending);
    FeedAppend(lines, Split(pending), parse);
  }

  // -- What the lines of the text say -------------------------------------------------------------

  predicate AllSpace(s: string) {
    forall i :: 0 <= i < |s| ==> IsSpace(s[i])
  }

  /** `p` is `s` without the white space around it. */
  predicate Trims(s: string, p: string, from: nat) {
    && from + |p| <= |s| && s[from..from + |p|] == p
    && AllSpace(s[..from]) && AllSpace(s[from + |p|..])
    && (p == "" ==> from == |s|) && (p != "" ==> !IsSpace(p[0]) && !IsSpace(p[|p| - 1]))
  }

  /** The line carries the payload `p`. */
  ghost predicate Payload(line: string, p: string) {
    "data:" <= line && exists from: nat :: Trims(line[5..], p, from)
  }

  /** The line carries some text. */
  ghost predicate Gives(line: string, parse: Parse, delta: string) {
    delta != "" && exists p :: Payload(line, p) && p != "[DONE]" && parse(p) == Some(TextDelta(delta))
  }

  /** Why a payload fails the stream. */
  predicate FailsFor(event: Option<Event>, p: string, reason: Failure) {
    match reason
    case UnexpectedLine(start) => event == None && start == (if |p| < 80 then p else p[..80])
    case StreamError(text) => event == Some(Failed(text))
    case NullPayload => event == Some(NullEvent)
    case NoText => false
  }

  /** The line ends the stream as a failure: its payload does not parse, reports an error, or is `null`. */
  ghost predicate Breaks(line: string, parse: Parse, reason: Failure) {
    exists p :: Payload(line, p) && p != "[DONE]" && FailsFor(parse(p), p, reason)
  }

  ghost predicate Goes(line: string, parse: Parse) {
    forall reason :: !Breaks(line, parse, reason)
  }

  /** The texts of the lines that carry some, in order. */
  ghost predicate Yields(lines: seq<string>, parse: Parse, deltas: seq<string>) {
    if lines == [] then deltas == []
    else if exists d :: Gives(lines[0], parse, d)
    then deltas != [] && Gives(lines[0], parse, deltas[0]) && Yields(lines[1..], parse, deltas[1..])
    else Yields(lines[1..], parse, deltas)
  }

  /** The texts up to the first line that fails and its failure, or all texts, which must not be none. */
  ghost predicate Answers(a: Answer, lines: seq<string>, parse: Parse, k: nat) {
    && k <= |lines| && (forall i :: 0 <= i < k ==> Goes(lines[i], parse)) && Yields(lines[..k], parse, a.deltas)
    && (if k < |lines| then a.failure.Some? && Breaks(lines[k], parse, a.failure.value)
        else a.failure == if a.deltas == [] then Some(NoText) else None)
  }

  function Lines(lines: seq<string>): string
    requires lines != []
  {
    if |lines| == 1 then lines[0] else lines[0] + ['\n'] + Lines(lines[1..])
  }

  /** The lines of the text: between its newlines. */
  predicate LinesOf(lines: seq<string>, text: string) {
    lines != [] && Lines(lines) == text && forall i :: 0 <= i < |lines| ==> '\n' !in lines[i]
  }

  lemma LinesBefore(c: char, lines: seq<string>)
    requires lines != []
    ensures Lines(Before(c, lines)) == [c] + Lines(lines)
  {
    var r := Before(c, lines);
    if c == '\n' {
      assert r[1..] == lines;
      assert [] + ['\n'] + Lines(lines) == ['\n'] + Lines(lines);
    } else if |lines| > 1 {
      assert r[1..] == lines[1..];
      assert ([c] + lines[0]) + ['\n'] + Lines(lines[1..]) == [c] + (lines[0] + ['\n'] + Lines(lines[1..]));
    }
  }

  lemma {:induction false} SplitIsLines(text: string)
    ensures LinesOf(Split(text), text)
  {
    if text != "" {
      SplitIsLines(text[1..]);
      LinesBefore(text[0], Split(text[1..]));
      assert text == [text[0]] + text[1..];
    }
  }

  lemma {:induction false} TrimStartDrops(s: string) returns (k: nat)
    ensures k <= |s| && TrimStart(s) == s[k..] && AllSpace(s[..k]) && (k < |s| ==> !IsSpace(s[k]))
  {
    k := 0;
    if s != "" && IsSpace(s[0]) {
      var rest := TrimStartDrops(s[1..]);
      k := rest + 1;
      assert s[..k] == [s[0]] + s[1..][..rest] && s[k..] == s[1..][rest..];
    }
  }

  lemma {:induction false} TrimEndDrops(s: string)
    ensures TrimEnd(s) <= s && AllSpace(s[|TrimEnd(s)|..])
    ensures TrimEnd(s) != "" ==> !IsSpace(TrimEnd(s)[|TrimEnd(s)| - 1])
  {
    if s != "" && IsSpace(s[|s| - 1]) {
      var front := s[..|s| - 1];
      TrimEndDrops(front);
      assert s[|TrimEnd(s)|..] == front[|TrimEnd(s)|..] + [s[|s| - 1]];
    }
  }

  lemma TrimTrims(s: string) returns (from: nat)
    ensures Trims(s, TrimEnd(TrimStart(s)), from)
  {
    from := TrimStartDrops(s);
    var t := TrimStart(s);
    TrimEndDrops(t);
    var p := TrimEnd(t);
    assert t[..|p|] == p && (p == "" ==> t[|p|..] == t);
    assert s[from..from + |p|] == p && s[from + |p|..] == t[|p|..];
  }

  lemma TrimsOnce(s: string, p: string, from: nat, q: string, at: nat)
    requires Trims(s, p, from) && Trims(s, q, at)
    ensures p == q
  {
    if p != "" && q != "" {
      assert s[from] == p[0] && s[at] == q[0];
      assert from == at;
      assert s[from + |p| - 1] == p[|p| - 1] && s[at + |q| - 1] == q[|q| - 1];
      assert |p| == |q|;
    }
  }

  lemma PayloadIs(line: string, p: string)
    ensures Payload(line, p) <==> DATA <= line && p == TrimEnd(TrimStart(line[|DATA|..]))
  {
    if DATA <= line {
      var s := line[|DATA|..];
      var at := TrimTrims(s);
      if from: nat :| Trims(s, p, from) {
        TrimsOnce(s, p, from, TrimEnd(TrimStart(s)), at);
      }
    }
  }

  lemma NoPayloadSaysNothing(line: string, parse: Parse)
    requires forall p :: !Payload(line, p)
    ensures Goes(line, parse) && forall x :: !Gives(line, parse, x)
  {
  }

  /** What a line with payload `p` gives, and how it breaks. */
  lemma PayloadGives(line: string, parse: Parse, p: string, x: string)
    requires forall q :: Payload(line, q) <==> q == p
    ensures Gives(line, parse, x) <==> x != "" && p != "[DONE]" && parse(p) == Some(TextDelta(x))
  {
    assert Payload(line, p);
  }

  lemma PayloadBreaks(line: string, parse: Parse, p: string, reason: Failure)
    requires forall q :: Payload(line, q) <==> q == p
    ensures Breaks(line, parse, reason) <==> p != "[DONE]" && FailsFor(parse(p), p, reason)
  {
    assert Payload(line, p);
  }

  predicate Says(v: Verdict, parse: Parse, p: string) {
    match v
    case Text(d) => p != "[DONE]" && parse(p) == Some(TextDelta(d))
    case Silent => p == "[DONE]" || parse(p) == Some(OtherEvent)
    case Fails(reason) => p != "[DONE]" && FailsFor(parse(p), p, reason)
  }

  lemma TextOfSays(p: string, parse: Parse)
    ensures Says(TextOf(p, parse), parse, p)
  {
  }

  /** What one line is taken for is what it says. */
  lemma VerdictIs(line: string, parse: Parse)
    ensures match VerdictOf(line, parse)
      case Text(d) => Goes(line, parse) && (if d == "" then forall x :: !Gives(line, parse, x) else Gives(line, parse, d))
      case Silent => Goes(line, parse) && forall x :: !Gives(line, parse, x)
      case Fails(reason) => Breaks(line, parse, reason)
  {
    forall q ensures Payload(line, q) <==> DATA <= line && q == TrimEnd(TrimStart(line[|DATA|..])) {
      PayloadIs(line, q);
    }
    if DATA <= line {
      var p := TrimEnd(TrimStart(line[|DATA|..]));
      TextOfSays(p, parse);
      SaysIt(line, parse, p);
    } else {
      NoPayloadSaysNothing(line, parse);
    }
  }

  lemma SaysIt(line: string, parse: Parse, p: string)
    requires (forall q :: Payload(line, q) <==> q == p) && Says(TextOf(p, parse), parse, p)
    ensures match TextOf(p, parse)
      case Text(d) => Goes(line, parse) && (if d == "" then forall x :: !Gives(line, parse, x) else Gives(line, parse, d))
      case Silent => Goes(line, parse) && forall x :: !Gives(line, parse, x)
      case Fails(reason) => Breaks(line, parse, reason)
  {
    forall x ensures Gives(line, parse, x) <==> x != "" && p != "[DONE]" && parse(p) == Some(TextDelta(x)) {
      PayloadGives(line, parse, p, x);
    }
    forall reason ensures Breaks(line, parse, reason) ==> parse(p) != Some(OtherEvent) && p != "[DONE]" && !(parse(p).Some? && parse(p).value.TextDelta?) {
      PayloadBreaks(line, parse, p, reason);
    }
    if TextOf(p, parse).Fails? {
      PayloadBreaks(line, parse, p, TextOf(p, parse).reason);
    }
  }

  /** Feeding lines stops at the first that fails. */
  lemma {:induction false} FeedIs(lines: seq<string>, parse: Parse) returns (k: nat)
    ensures k <= |lines| && (forall i :: 0 <= i < k ==> Goes(lines[i], parse)) && Yields(lines[..k], parse, Feed(lines, parse).deltas)
    ensures if k < |lines| then Feed(lines, parse).failure.Some? && Breaks(lines[k], parse, Feed(lines, parse).failure.value)
      else Feed(lines, parse).failure.None?
  {
    k := 0;
    if lines != [] {
      VerdictIs(lines[0], parse);
      if !VerdictOf(lines[0], parse).Fails? {
        var rest := FeedIs(lines[1..], parse);
        k := rest + 1;
        YieldsMore(lines, parse, rest);
        assert forall i :: 0 <= i < rest ==> lines[1..][i] == lines[i + 1];
        forall i | 0 <= i < k ensures Goes(lines[i], parse) {
          if i > 0 { assert Goes(lines[1..][i - 1], parse); }
        }
      }
    }
  }

  lemma YieldsMore(lines: seq<string>, parse: Parse, rest: nat)
    requires lines != [] && rest <= |lines| - 1 && !VerdictOf(lines[0], parse).Fails?
    requires Yields(lines[1..][..rest], parse, Feed(lines[1..], parse).deltas)
    ensures Yields(lines[..rest + 1], parse, Feed(lines, parse).deltas)
  {
    var front := lines[..rest + 1];
    assert front[0] == lines[0] && front[1..] == lines[1..][..rest];
    VerdictIs(lines[0], parse);
    var after := Feed(lines[1..], parse).deltas;
    match VerdictOf(lines[0], parse)
    case Text(d) => if d != "" { assert ([d] + after)[1..] == after; assert Gives(lines[0], parse, d); }
    case Silent =>
  }

  /** The whole text's answer, said by its lines. */
  lemma WholeAnswers(text: string, parse: Parse) returns (lines: seq<string>, k: nat)
    ensures LinesOf(lines, text) && Answers(Whole(text, parse), lines, parse, k)
  {
    lines := Split(text);
    SplitIsLines(text);
    k := FeedIs(lines, parse);
  }

  /** Parses the answer chunk by chunk. However the text is cut, it yields the texts of the whole text's
      lines up to the first that fails, and fails as that one does; and without any text it fails. */
  method Stream(chunks: seq<string>, parse: Parse) returns (a: Answer)
    ensures a == Whole(Joined(chunks), parse)
    ensures exists lines: seq<string>, k: nat :: LinesOf(lines, Joined(chunks)) && Answers(a, lines, parse, k)
  {
    ghost var said, failing := WholeAnswers(Joined(chunks), parse);
    var pending := "";
    a := Answer([], None);
    ghost var prefix, lines := "", [];
    for i := 0 to |chunks|
      invariant Consumed(prefix, lines) && prefix + pending == Joined(chunks[..i])
      invariant a == Feed(lines, parse) && a.failure.None?
    {
      JoinedNext(chunks, i, prefix, pending);
      pending := pending + chunks[i];
      var complete := LastNewline(pending);
      if complete >= 0 {
        TakeComplete(prefix, lines, pending, complete, parse);
        var fed := Feed(Split(pending[..complete]), parse);
        prefix, lines := prefix + pending[..complete + 1], lines + Split(pending[..complete]);
        a := Answer(a.deltas + fed.deltas, fed.failure);
        pending := pending[complete + 1..];
        if a.failure.Some? {
          FailedEarly(chunks, i + 1, prefix, lines, pending, parse);
          return;
        }
      }
    }
    assert chunks[..|chunks|] == chunks;
    Finished(prefix, lines, pending, parse);
    var last := Feed(Split(pending), parse);
    a := Answer(a.deltas + last.deltas, last.failure);
    if a.failure.None? && a.deltas == [] {
      a := a.(failure := Some(NoText));
    }
  }
}
