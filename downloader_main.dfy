/** The console loop of the downloader (`main`): URLs typed one per line
    are queued; `go` asks for a format (and, for mp4, a resolution) and hands
    the first ten queued URLs to the downloader; `exit` or `quit` ends the
    session. The input is the sequence of lines typed; the threads that run
    the downloads are abstracted as the batch handed over. */
module DownloaderMain {
  import opened Wrappers
  import opened Text
  import Downloader

  /** At most this many queued URLs are handed over per `go`. */
  const MaxBatch := 10

  /** The answers the resolution prompt accepts besides a blank line. */
  const ResolutionKeys: set<string> := {"480p", "720p", "1080p", "2k", "4k"}

  /** Why a session ended: a quit command, or the input ran out
      (`input()` raising `EOFError`, which ends the program). */
  datatype Stop = Quit | InputExhausted

  /** The work handed to the downloader by one `go`. */
  datatype Batch = Batch(urls: seq<string>, formatChoice: string, resolutionChoice: Option<string>)

  /** What a session did: the batches handed over in order, the queue left
      at the end and why it ended. */
  datatype Transcript = Transcript(batches: seq<Batch>, queue: seq<string>, stop: Stop)

  /** An answer to the resolution prompt and the number of lines read to get it. */
  datatype Answer = Answer(choice: string, used: nat)

  /** The answers read after `go`, and the number of lines they took. */
  datatype Choices = Choices(formatChoice: string, resolutionChoice: Option<string>, used: nat)

  /** A line as the prompts compare it: stripped and lower-cased. */
  function Normal(line: string): string {
    ToLower(Strip(line))
  }

  predicate IsQuit(line: string) {
    Normal(line) == "exit" || Normal(line) == "quit"
  }

  predicate IsGo(line: string) {
    Normal(line) == "go"
  }

  /** A line the loop queues: not blank and not a command. */
  predicate IsUrlLine(line: string) {
    !IsQuit(line) && !IsGo(line) && Strip(line) != ""
  }

  /** A line that ends the resolution prompt: blank, or one of the keys. */
  predicate AcceptsResolution(line: string) {
    Normal(line) == "" || Normal(line) in ResolutionKeys
  }

  /** The resolution prompt repeated until an accepted line; `None` when the
      input runs out first. */
  function ResolutionAnswer(lines: seq<string>): (a: Option<Answer>)
    ensures a.Some? ==>
      && 1 <= a.value.used <= |lines|
      && AcceptsResolution(lines[a.value.used - 1])
      && a.value.choice == Normal(lines[a.value.used - 1])
      && (forall k :: 0 <= k < a.value.used - 1 ==> !AcceptsResolution(lines[k]))
    ensures a.None? <==> forall k :: 0 <= k < |lines| ==> !AcceptsResolution(lines[k])
    decreases |lines|
  {
    if lines == [] then None
    else if AcceptsResolution(lines[0]) then Some(Answer(Normal(lines[0]), 1))
    else
      match ResolutionAnswer(lines[1..])
      case None => None
      case Some(a) => Some(Answer(a.choice, a.used + 1))
  }

  /** The answers to the prompts after `go`: the format line, then for
      mp4 the resolution prompt. */
  function GoChoices(lines: seq<string>): Option<Choices> {
    if lines == [] then None
    else
      var formatChoice := Normal(lines[0]);
      if formatChoice != "mp4" then Some(Choices(formatChoice, None, 1))
      else
        match ResolutionAnswer(lines[1..])
        case None => None
        case Some(a) => Some(Choices(formatChoice, Some(a.choice), a.used + 1))
  }

  function Min(a: int, b: int): int {
    if a < b then a else b
  }

  /** The queued URLs one `go` hands over: the first ten, in order. */
  function BatchOf(queue: seq<string>): (batch: seq<string>)
    ensures batch <= queue
    ensures |batch| == Min(MaxBatch, |queue|)
  {
    queue[..Min(MaxBatch, |queue|)]
  }

  /** `t` preceded by the batches `done`. */
  function After(done: seq<Batch>, t: Transcript): Transcript {
    t.(batches := done + t.batches)
  }

  lemma AfterAfter(first: seq<Batch>, second: seq<Batch>, t: Transcript)
    ensures After(first + second, t) == After(first, After(second, t))
  {
    assert (first + second) + t.batches == first + (second + t.batches);
  }

  /** The session that starts with `queue` queued and reads `lines`. */
  function Session(queue: seq<string>, lines: seq<string>): Transcript
    decreases |lines|
  {
    if lines == [] then Transcript([], queue, InputExhausted)
    else
      var line := Strip(lines[0]);
      var rest := lines[1..];
      if IsQuit(lines[0]) then Transcript([], queue, Quit)
      else if IsGo(lines[0]) then
        if queue == [] then Session(queue, rest)
        else
          match GoChoices(rest)
          case None => Transcript([], queue, InputExhausted)
          case Some(c) =>
            After([Batch(BatchOf(queue), c.formatChoice, c.resolutionChoice)],
                  Session([], rest[c.used..]))
      else if line != "" then Session(queue + [line], rest)
      else Session(queue, rest)
  }

  /** The resolution prompt loop, reading from `lines` at `start`. */
  method AskResolution(lines: seq<string>, start: nat) returns (answer: Option<string>, next: nat)
    requires start <= |lines|
    ensures ResolutionAnswer(lines[start..]).None? ==> answer.None?
    ensures ResolutionAnswer(lines[start..]).Some? ==>
      var a := ResolutionAnswer(lines[start..]).value;
      answer == Some(a.choice) && next == start + a.used
  {
    var choice: Option<string> := None;
    next := start;
    while choice.None? || choice.value !in ResolutionKeys
      invariant start <= next <= |lines|
      invariant choice.None? ==> next == start
      invariant choice.Some? ==> next > start && choice.value == Normal(lines[next - 1]) && choice.value != ""
      invariant forall k :: start <= k < next - 1 ==> !AcceptsResolution(lines[k])
      decreases |lines| - next
    {
      if next == |lines| {
        NoneAccepted(lines, start);
        return None, next;
      }
      var c := Normal(lines[next]);
      next := next + 1;
      choice := Some(c);
      if c == "" {
        break;
      }
    }
    FirstAccepted(lines, start, next - 1);
    answer := choice;
  }

  /** No accepted line from `start` on: the prompt never gets an answer. */
  lemma {:induction false} NoneAccepted(lines: seq<string>, start: nat)
    requires start <= |lines|
    requires forall k :: start <= k < |lines| ==> !AcceptsResolution(lines[k])
    ensures ResolutionAnswer(lines[start..]).None?
    decreases |lines| - start
  {
    if start < |lines| {
      NoneAccepted(lines, start + 1);
      assert lines[start..][1..] == lines[start + 1..];
    }
  }

  /** The answer is the first accepted line from `start` on. */
  lemma {:induction false} FirstAccepted(lines: seq<string>, start: nat, i: nat)
    requires start <= i < |lines| && AcceptsResolution(lines[i])
    requires forall k :: start <= k < i ==> !AcceptsResolution(lines[k])
    ensures ResolutionAnswer(lines[start..]) == Some(Answer(Normal(lines[i]), i - start + 1))
    decreases i - start
  {
    assert lines[start..][0] == lines[start];
    if start < i {
      FirstAccepted(lines, start + 1, i);
      assert lines[start..][1..] == lines[start + 1..];
    }
  }

  /** One step of the session at line `pos`. */
  lemma SessionAt(queue: seq<string>, lines: seq<string>, pos: nat)
    requires pos < |lines|
    ensures IsQuit(lines[pos]) ==> Session(queue, lines[pos..]) == Transcript([], queue, Quit)
    ensures !IsQuit(lines[pos]) && IsGo(lines[pos]) && queue == [] ==>
      Session(queue, lines[pos..]) == Session(queue, lines[pos + 1..])
    ensures !IsQuit(lines[pos]) && IsGo(lines[pos]) && queue != [] ==>
      Session(queue, lines[pos..]) ==
        match GoChoices(lines[pos + 1..])
        case None => Transcript([], queue, InputExhausted)
        case Some(c) =>
          After([Batch(BatchOf(queue), c.formatChoice, c.resolutionChoice)],
                Session([], lines[pos + 1..][c.used..]))
    ensures !IsQuit(lines[pos]) && !IsGo(lines[pos]) && Strip(lines[pos]) != "" ==>
      Session(queue, lines[pos..]) == Session(queue + [Strip(lines[pos])], lines[pos + 1..])
    ensures !IsQuit(lines[pos]) && !IsGo(lines[pos]) && Strip(lines[pos]) == "" ==>
      Session(queue, lines[pos..]) == Session(queue, lines[pos + 1..])
  {
    assert lines[pos..][0] == lines[pos];
    assert lines[pos..][1..] == lines[pos + 1..];
  }

  /** The prompts after `go`, read from line `pos`. */
  lemma GoChoicesAt(lines: seq<string>, pos: nat)
    requires pos < |lines|
    ensures Normal(lines[pos]) != "mp4" ==>
      GoChoices(lines[pos..]) == Some(Choices(Normal(lines[pos]), None, 1))
    ensures Normal(lines[pos]) == "mp4" ==>
      GoChoices(lines[pos..]) ==
        match ResolutionAnswer(lines[pos + 1..])
        case None => None
        case Some(a) => Some(Choices("mp4", Some(a.choice), a.used + 1))
  {
    assert lines[pos..][0] == lines[pos];
    assert lines[pos..][1..] == lines[pos + 1..];
  }

  /** Runs the loop of `main` over the typed lines. */
  method RunSession(lines: seq<string>) returns (batches: seq<Batch>, queue: seq<string>, stop: Stop)
    ensures Transcript(batches, queue, stop) == Session([], lines)
  {
    batches, queue := [], [];
    var pos := 0;
    while pos < |lines|
      invariant pos <= |lines|
      invariant Session([], lines) == After(batches, Session(queue, lines[pos..]))
      decreases |lines| - pos
    {
      var raw := lines[pos];
      var line := Strip(raw);
      SessionAt(queue, lines, pos);
      ghost var at := pos;
      pos := pos + 1;
      if IsQuit(raw) {
        stop := Quit;
        return;
      } else if IsGo(raw) {
        if queue != [] {
          if pos == |lines| {
            stop := InputExhausted;
            return;
          }
          GoChoicesAt(lines, pos);
          var formatChoice := Normal(lines[pos]);
          pos := pos + 1;
          var resolutionChoice: Option<string> := None;
          if formatChoice == "mp4" {
            var answer, next := AskResolution(lines, pos);
            if answer.None? {
              stop := InputExhausted;
              return;
            }
            resolutionChoice := answer;
            pos := next;
          }
          ghost var c := GoChoices(lines[at + 1..]).value;
          assert lines[at + 1..][c.used..] == lines[pos..];
          var batch := Batch(BatchOf(queue), formatChoice, resolutionChoice);
          AfterAfter(batches, [batch], Session([], lines[pos..]));
          batches := batches + [batch];
          queue := [];
        }
      } else if line != "" {
        queue := queue + [line];
      }
    }
    stop := InputExhausted;
  }

  /** The lines as the loop queues them. */
  function Stripped(lines: seq<string>): (urls: seq<string>)
    ensures |urls| == |lines|
  {
    if lines == [] then [] else [Strip(lines[0])] + Stripped(lines[1..])
  }

  /** Lines that are neither blank nor a command are queued, each exactly
      once, stripped, in the order typed. */
  lemma {:induction false} UrlLinesQueued(queue: seq<string>, urls: seq<string>, more: seq<string>)
    requires forall i :: 0 <= i < |urls| ==> IsUrlLine(urls[i])
    ensures Session(queue, urls + more) == Session(queue + Stripped(urls), more)
    decreases |urls|
  {
    if urls != [] {
      var lines := urls + more;
      assert lines[0] == urls[0];
      assert lines[1..] == urls[1..] + more;
      UrlLinesQueued(queue + [Strip(urls[0])], urls[1..], more);
      assert queue + [Strip(urls[0])] + Stripped(urls[1..]) == queue + Stripped(urls);
    } else {
      assert urls + more == more;
      assert queue + Stripped(urls) == queue;
    }
  }

  /** A session of URL lines alone ends with all of them queued and none
      handed over. */
  lemma UrlLinesOnly(urls: seq<string>)
    requires forall i :: 0 <= i < |urls| ==> IsUrlLine(urls[i])
    ensures Session([], urls) == Transcript([], Stripped(urls), InputExhausted)
  {
    UrlLinesQueued([], urls, []);
    assert urls + [] == urls;
  }

  /** URLs typed, then `go` and a format other than mp4: the first ten of
      those URLs, in order, are handed over with that format and no
      resolution, and the session goes on with an empty queue. */
  lemma QueueThenGo(urls: seq<string>, go: string, format: string, rest: seq<string>)
    requires urls != [] && forall i :: 0 <= i < |urls| ==> IsUrlLine(urls[i])
    requires IsGo(go) && Normal(format) != "mp4"
    ensures Session([], urls + [go, format] + rest)
         == After([Batch(BatchOf(Stripped(urls)), Normal(format), None)], Session([], rest))
  {
    var tail := [go, format] + rest;
    assert urls + [go, format] + rest == urls + tail;
    UrlLinesQueued([], urls, tail);
    assert [] + Stripped(urls) == Stripped(urls);
    assert tail[0] == go && tail[1] == format;
    assert tail[0..] == tail && tail[2..] == rest;
    assert !IsQuit(go);
    SessionAt(Stripped(urls), tail, 0);
    GoChoicesAt(tail, 1);
    assert GoChoices(tail[1..]) == Some(Choices(Normal(format), None, 1));
    assert tail[1..][1..] == rest;
  }

  /** `go` with nothing queued reads no further prompt and hands nothing over. */
  lemma GoWithEmptyQueue(go: string, rest: seq<string>)
    requires IsGo(go)
    ensures Session([], [go] + rest) == Session([], rest)
  {
    assert ([go] + rest)[1..] == rest;
  }

  /** `exit` or `quit`, in any case and with any surrounding white space,
      ends the session at once: nothing after it is read and nothing more
      is handed over. */
  lemma QuitEndsSession(queue: seq<string>, quit: string, rest: seq<string>)
    requires IsQuit(quit)
    ensures Session(queue, [quit] + rest) == Transcript([], queue, Quit)
  {
  }

  /** A queue as the loop builds it: stripped, non-blank lines. */
  predicate QueueOk(queue: seq<string>) {
    forall i :: 0 <= i < |queue| ==> queue[i] != "" && Strip(queue[i]) == queue[i]
  }

  /** A batch as `go` hands it over: one to ten queued URLs; a resolution
      exactly when the format is mp4, and then either blank (best quality)
      or a name the downloader's height table knows. */
  predicate BatchOk(b: Batch) {
    && 1 <= |b.urls| <= MaxBatch
    && QueueOk(b.urls)
    && (b.resolutionChoice.Some? <==> b.formatChoice == "mp4")
    && (b.resolutionChoice.Some? && b.resolutionChoice.value != "" ==>
          Downloader.RequestedHeight(b.resolutionChoice).Some?)
  }

  /** Every batch a session hands over is well formed, and so is the queue
      it leaves. */
  lemma {:induction false} SessionBatchesOk(queue: seq<string>, lines: seq<string>)
    requires QueueOk(queue)
    ensures var t := Session(queue, lines);
      QueueOk(t.queue) && forall i :: 0 <= i < |t.batches| ==> BatchOk(t.batches[i])
    decreases |lines|
  {
    if lines != [] {
      var rest := lines[1..];
      if IsQuit(lines[0]) {
      } else if IsGo(lines[0]) {
        if queue == [] {
          SessionBatchesOk(queue, rest);
        } else {
          match GoChoices(rest)
          case None =>
          case Some(c) =>
            ChoicesOk(rest);
            SessionBatchesOk([], rest[c.used..]);
            var b := Batch(BatchOf(queue), c.formatChoice, c.resolutionChoice);
            assert BatchOk(b);
        }
      } else if Strip(lines[0]) != "" {
        StripIdempotent(lines[0]);
        SessionBatchesOk(queue + [Strip(lines[0])], rest);
      } else {
        SessionBatchesOk(queue, rest);
      }
    }
  }

  /** The prompts after `go` give a resolution exactly for mp4, and a
      non-blank one is a key of the downloader's height table. */
  lemma ChoicesOk(lines: seq<string>)
    requires GoChoices(lines).Some?
    ensures var c := GoChoices(lines).value;
      && 1 <= c.used <= |lines|
      && (c.resolutionChoice.Some? <==> c.formatChoice == "mp4")
      && (c.resolutionChoice.Some? && c.resolutionChoice.value != "" ==>
            Downloader.RequestedHeight(c.resolutionChoice).Some?)
  {
    var c := GoChoices(lines).value;
    if c.resolutionChoice.Some? && c.resolutionChoice.value != "" {
      var a := ResolutionAnswer(lines[1..]).value;
      var line := lines[1..][a.used - 1];
      ToLowerIdempotent(Strip(line));
      assert ToLower(c.resolutionChoice.value) == c.resolutionChoice.value;
    }
  }
}
