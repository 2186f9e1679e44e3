/**
 * The Sender boundary and the fake sender the client is exercised with:
 * a log of every call made and a first-in first-out queue of canned
 * replies.
 */
module Sender {
  import opened Wrappers
  import opened Text
  import Percent

  /** One request as handed to Send: HTTP verb, relative path, form body. */
  datatype Request = Request(verb: string, path: string, body: string)

  /** What Send gives back: the payload and, on failure, the error message. */
  datatype Reply = Reply(data: seq<Percent.byte>, err: Option<string>)

  /** The line the fake sender logs for a call: "METHOD path body", trimmed. */
  function CallLine(rq: Request): string
  {
    TrimSpace(rq.verb + " " + rq.path + " " + rq.body)
  }

  /** The error the fake sender reports when no reply is queued. */
  function NoResponse(rq: Request): string
  {
    "no response for " + rq.verb + " " + rq.path
  }

  /** The fake sender's whole state. */
  datatype State = State(calls: seq<string>, responses: seq<Reply>)

  /** One Send on the fake sender, as a function of its state. */
  function Step(st: State, rq: Request): (r: (State, Reply))
    ensures r.0.calls == st.calls + [CallLine(rq)]
    ensures st.responses == [] ==> r.0.responses == [] && r.1 == Reply([], Some(NoResponse(rq)))
    ensures st.responses != [] ==> r.0.responses == st.responses[1..] && r.1 == st.responses[0]
  {
    var calls := st.calls + [CallLine(rq)];
    if |st.responses| == 0 then (State(calls, []), Reply([], Some(NoResponse(rq))))
    else (State(calls, st.responses[1..]), st.responses[0])
  }

  /** A series of Sends, returning the final state and the replies in order. */
  function Steps(st: State, rqs: seq<Request>): (State, seq<Reply>)
    decreases |rqs|
  {
    if |rqs| == 0 then (st, [])
    else
      var (st', reply) := Step(st, rqs[0]);
      var (last, replies) := Steps(st', rqs[1..]);
      (last, [reply] + replies)
  }

  function CallLines(rqs: seq<Request>): (r: seq<string>)
    ensures |r| == |rqs| && forall i :: 0 <= i < |r| ==> r[i] == CallLine(rqs[i])
  {
    if |rqs| == 0 then [] else [CallLine(rqs[0])] + CallLines(rqs[1..])
  }

  lemma AppendAssoc<T>(a: seq<T>, b: seq<T>, c: seq<T>)
    ensures a + b + c == a + (b + c)
  {
  }

  /** Every Send logs exactly one line, in call order, whatever the queue holds. */
  lemma {:induction false} StepsLog(st: State, rqs: seq<Request>)
    ensures Steps(st, rqs).0.calls == st.calls + CallLines(rqs)
    decreases |rqs|
  {
    if |rqs| > 0 {
      var line := CallLine(rqs[0]);
      var st' := Step(st, rqs[0]).0;
      assert st'.calls == st.calls + [line];
      assert Steps(st, rqs).0 == Steps(st', rqs[1..]).0;
      StepsLog(st', rqs[1..]);
      var later := CallLines(rqs[1..]);
      assert CallLines(rqs) == [line] + later;
      AppendAssoc(st.calls, [line], later);
    }
  }

  /**
   * First in, first out: while replies last, the k-th Send gets the k-th
   * queued reply, and exactly the replies handed out leave the queue.
   */
  lemma {:induction false} StepsFifo(st: State, rqs: seq<Request>)
    requires |rqs| <= |st.responses|
    ensures Steps(st, rqs).1 == st.responses[..|rqs|]
    ensures Steps(st, rqs).0.responses == st.responses[|rqs|..]
    decreases |rqs|
  {
    if |rqs| > 0 {
      var st' := State(st.calls + [CallLine(rqs[0])], st.responses[1..]);
      assert Step(st, rqs[0]) == (st', st.responses[0]);
      var rest := Steps(st', rqs[1..]);
      assert Steps(st, rqs) == (rest.0, [st.responses[0]] + rest.1);
      StepsFifo(st', rqs[1..]);
      assert st.responses[1..][..|rqs| - 1] == st.responses[1..|rqs|];
      assert [st.responses[0]] + st.responses[1..|rqs|] == st.responses[..|rqs|];
      assert st.responses[1..][|rqs| - 1..] == st.responses[|rqs|..];
    }
  }

  /** One more Send after a series extends the series by one step. */
  lemma {:induction false} StepsSnoc(st: State, rqs: seq<Request>, rq: Request)
    ensures Steps(st, rqs + [rq]).0 == Step(Steps(st, rqs).0, rq).0
    ensures Steps(st, rqs + [rq]).1 == Steps(st, rqs).1 + [Step(Steps(st, rqs).0, rq).1]
    decreases |rqs|
  {
    if |rqs| == 0 {
      assert rqs + [rq] == [rq];
      assert [rq][0] == rq && [rq][1..] == [];
      var (after, reply) := Step(st, rq);
      assert Steps(after, []) == (after, []);
      assert [reply] + [] == [reply];
      assert Steps(st, [rq]) == (Step(st, rq).0, [Step(st, rq).1]);
    } else {
      var (next, first) := Step(st, rqs[0]);
      assert (rqs + [rq])[0] == rqs[0];
      assert (rqs + [rq])[1..] == rqs[1..] + [rq];
      var tail := Steps(next, rqs[1..]);
      var longer := Steps(next, rqs[1..] + [rq]);
      assert Steps(st, rqs) == (tail.0, [first] + tail.1);
      assert Steps(st, rqs + [rq]) == (longer.0, [first] + longer.1);
      StepsSnoc(next, rqs[1..], rq);
      var last := Step(tail.0, rq).1;
      assert longer.1 == tail.1 + [last];
      assert [first] + (tail.1 + [last]) == [first] + tail.1 + [last];
    }
  }

  /** Once the queue is empty every further Send fails with the no-response error. */
  lemma {:induction false} StepsExhausted(st: State, rqs: seq<Request>)
    requires st.responses == []
    ensures Steps(st, rqs).0.responses == []
    ensures |Steps(st, rqs).1| == |rqs|
    ensures forall i :: 0 <= i < |rqs| ==> Steps(st, rqs).1[i] == Reply([], Some(NoResponse(rqs[i])))
    decreases |rqs|
  {
    if |rqs| > 0 {
      var st' := State(st.calls + [CallLine(rqs[0])], []);
      var reply := Reply([], Some(NoResponse(rqs[0])));
      assert Step(st, rqs[0]) == (st', reply);
      var rest := Steps(st', rqs[1..]);
      assert Steps(st, rqs) == (rest.0, [reply] + rest.1);
      StepsExhausted(st', rqs[1..]);
    }
  }

  /** With no body the logged line has no trailing blank: "GET ping". */
  lemma CallLineNoBody(verb: string, path: string)
    requires verb != [] && !IsSpace(verb[0])
    requires path != [] && !IsSpace(path[|path| - 1])
    ensures CallLine(Request(verb, path, "")) == verb + " " + path
  {
    var s := verb + " " + path;
    assert s[0] == verb[0] && s[|s| - 1] == path[|path| - 1];
    assert verb + " " + path + " " + "" == s + " ";
    TrimSpaceTrailing(s, " ");
  }

  /** With a body whose ends are not blank, the line is method, path and body. */
  lemma CallLineWithBody(verb: string, path: string, body: string)
    requires verb != [] && !IsSpace(verb[0])
    requires body != [] && !IsSpace(body[|body| - 1])
    ensures CallLine(Request(verb, path, body)) == verb + " " + path + " " + body
  {
    var s := verb + " " + path + " " + body;
    assert s[0] == verb[0] && s[|s| - 1] == body[|body| - 1];
    TrimSpaceOfTrimmed(s);
  }

  /** The fake sender of the client's test: calls made and replies still queued. */
  class FakeSender {
    var calls: seq<string>
    var responses: seq<Reply>

    function Snapshot(): State
      reads this
    {
      State(calls, responses)
    }

    constructor ()
      ensures calls == [] && responses == []
    {
      calls := [];
      responses := [];
    }

    /** Logs the call, then hands out the oldest queued reply or fails with NoResponse. */
    method Send(verb: string, path: string, body: string) returns (data: seq<Percent.byte>, err: Option<string>)
      modifies this
      ensures (Snapshot(), Reply(data, err)) == Step(old(Snapshot()), Request(verb, path, body))
      ensures calls == old(calls) + [CallLine(Request(verb, path, body))]
      ensures old(responses) == [] ==>
        responses == [] && data == [] && err == Some(NoResponse(Request(verb, path, body)))
      ensures old(responses) != [] ==>
        responses == old(responses)[1..] && data == old(responses)[0].data && err == old(responses)[0].err
    {
      var call := CallLine(Request(verb, path, body));
      calls := calls + [call];
      if |responses| == 0 {
        return [], Some(NoResponse(Request(verb, path, body)));
      }
      var re := responses[0];
      responses := responses[1..];
      return re.data, re.err;
    }

    /** Appends a canned reply at the back of the queue. */
    method Enqueue(r: Reply)
      modifies this
      ensures responses == old(responses) + [r] && calls == old(calls)
    {
      responses := responses + [r];
    }

    /** Sends the requests one after another; the state and replies follow Steps. */
    method SendAll(rqs: seq<Request>) returns (replies: seq<Reply>)
      modifies this
      ensures (Snapshot(), replies) == Steps(old(Snapshot()), rqs)
    {
      ghost var start := Snapshot();
      replies := [];
      var i := 0;
      while i < |rqs|
        invariant 0 <= i <= |rqs|
        invariant Snapshot() == Steps(start, rqs[..i]).0
        invariant replies == Steps(start, rqs[..i]).1
      {
        var rq := rqs[i];
        StepsSnoc(start, rqs[..i], rq);
        assert rqs[..i + 1] == rqs[..i] + [rq];
        var data, err := Send(rq.verb, rq.path, rq.body);
        assert Request(rq.verb, rq.path, rq.body) == rq;
        replies := replies + [Reply(data, err)];
        i := i + 1;
      }
      assert rqs[..i] == rqs;
    }

    /** Forgets the calls logged so far. */
    method ClearCalls()
      modifies this
      ensures calls == [] && responses == old(responses)
    {
      calls := [];
    }
  }
}
