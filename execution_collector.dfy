/** How the session server (`ipython_mcp/server.py`) turns the broadcast stream that
    follows one execute request into a single report. */
module ExecutionCollector {
  import opened Outcomes
  import opened PyText
  import opened IopubOutput
  import opened ToolReports

  /** A broadcast message: the `msg_id` of its parent header, if any, and its content. */
  datatype IopubMsg = IopubMsg(parentMsgId: Option<string>, content: Content)

  /** One `get_iopub_msg(timeout=1)` call: a message, or a read that raised (timeout or
      any other error). When the supplied events run out, the next read is a failed one. */
  datatype PollEvent = Received(msg: IopubMsg) | ReadFailed

  /** The message belongs to the request whose `msg_id` is `msgId`. */
  predicate FromRequest(msgId: string, m: IopubMsg) {
    m.parentMsgId == Some(msgId)
  }

  /** The event ends collection: a failed read, or an idle status of this request. */
  predicate EndsCollection(msgId: string, e: PollEvent) {
    e.ReadFailed? || (FromRequest(msgId, e.msg) && IsIdle(e.msg.content))
  }

  /** What one event adds to the report when it does not end collection. */
  function Contribution(msgId: string, e: PollEvent): seq<string> {
    if e.Received? && FromRequest(msgId, e.msg) then OutputFragment(e.msg.content) else []
  }

  /** The fragments the collection loop gathers, event after event, until an event ends it. */
  function Collected(msgId: string, evs: seq<PollEvent>): (r: seq<string>) {
    if evs == [] || EndsCollection(msgId, evs[0]) then []
    else Contribution(msgId, evs[0]) + Collected(msgId, evs[1..])
  }

  /** No collected fragment is the empty string. */
  lemma {:induction false} CollectedNonblank(msgId: string, evs: seq<PollEvent>)
    ensures forall i :: 0 <= i < |Collected(msgId, evs)| ==> Collected(msgId, evs)[i] != ""
  {
    if evs != [] && !EndsCollection(msgId, evs[0]) {
      CollectedNonblank(msgId, evs[1..]);
    }
  }

  // ---- Reference definition: where collection stops, and what the request's messages say ----

  /** Index of the first event that ends collection, or the number of events. */
  function CollectionEnd(msgId: string, evs: seq<PollEvent>): (k: nat)
    ensures k <= |evs|
  {
    if evs == [] || EndsCollection(msgId, evs[0]) then 0
    else 1 + CollectionEnd(msgId, evs[1..])
  }

  /** `CollectionEnd` is the position of the first event that ends collection. */
  lemma {:induction false} CollectionEndIsFirstStop(msgId: string, evs: seq<PollEvent>)
    ensures var k := CollectionEnd(msgId, evs);
            (forall j :: 0 <= j < k ==> !EndsCollection(msgId, evs[j])) &&
            (k < |evs| ==> EndsCollection(msgId, evs[k]))
  {
    if evs != [] && !EndsCollection(msgId, evs[0]) {
      CollectionEndIsFirstStop(msgId, evs[1..]);
      var k := CollectionEnd(msgId, evs);
      forall j | 0 < j < k
        ensures !EndsCollection(msgId, evs[j])
      {
        assert evs[j] == evs[1..][j - 1];
      }
      if k < |evs| {
        assert evs[k] == evs[1..][k - 1];
      }
    }
  }

  /** The fragments of the request's messages among `evs`, in arrival order, whatever
      else arrives among them. */
  function Gathered(msgId: string, evs: seq<PollEvent>): seq<string> {
    if evs == [] then []
    else Contribution(msgId, evs[0]) + Gathered(msgId, evs[1..])
  }

  /** The loop's result is the fragments of the request's messages that arrived before
      the first event ending collection, in arrival order. */
  lemma {:induction false} CollectedIsGatheredPrefix(msgId: string, evs: seq<PollEvent>)
    ensures Collected(msgId, evs) == Gathered(msgId, evs[..CollectionEnd(msgId, evs)])
    decreases |evs|
  {
    if evs == [] || EndsCollection(msgId, evs[0]) {
      assert evs[..0] == [];
    } else {
      var k := CollectionEnd(msgId, evs);
      CollectedIsGatheredPrefix(msgId, evs[1..]);
      assert evs[..k][0] == evs[0] && evs[..k][1..] == evs[1..][..k - 1];
    }
  }

  /** A message of another request, wherever it arrives, changes nothing in the result. */
  lemma {:induction false} CollectedIgnoresForeign(msgId: string, a: seq<PollEvent>, m: IopubMsg, b: seq<PollEvent>)
    requires !FromRequest(msgId, m)
    ensures Collected(msgId, a + [Received(m)] + b) == Collected(msgId, a + b)
    decreases |a|
  {
    if a == [] {
      var evs := [Received(m)] + b;
      assert a + [Received(m)] + b == evs && a + b == b;
      assert evs[0] == Received(m) && evs[1..] == b;
      assert !EndsCollection(msgId, evs[0]) && Contribution(msgId, evs[0]) == [];
      assert Collected(msgId, evs) == [] + Collected(msgId, b);
    } else {
      assert (a + [Received(m)] + b)[0] == a[0] && (a + b)[0] == a[0];
      assert (a + [Received(m)] + b)[1..] == a[1..] + [Received(m)] + b;
      assert (a + b)[1..] == a[1..] + b;
      CollectedIgnoresForeign(msgId, a[1..], m, b);
    }
  }

  /** When no message of the request arrives, nothing is collected. */
  lemma {:induction false} CollectedOnlyFromRequest(msgId: string, evs: seq<PollEvent>)
    requires forall i :: 0 <= i < |evs| ==> evs[i].Received? ==> !FromRequest(msgId, evs[i].msg)
    ensures Collected(msgId, evs) == []
    decreases |evs|
  {
    if evs != [] && !EndsCollection(msgId, evs[0]) {
      CollectedOnlyFromRequest(msgId, evs[1..]);
    }
  }

  /** The branch of the collection loop that turns one message of the request, other
      than a status, into fragments. */
  method Fragments(c: Content) returns (f: seq<string>)
    ensures f == OutputFragment(c)
  {
    f := [];
    match c {
      case Stream(text) =>
        var s := Strip(text);
        if s != "" {
          f := [s];
        }
      case ExecuteResult(plain) =>
        if plain != "" {
          f := [plain];
        }
      case Error(name, value, traceback) =>
        var clean := CleanTraceback(traceback);
        assert clean == CleanedTraceback(traceback);
        var text := name.GetOr("Error") + ": " + value;
        if traceback != [] {
          text := text + "\n" + Join(clean, "\n");
        }
        f := [CrossMark + " " + text];
      case Status(_) =>
      case Ignored =>
    }
  }

  /** One turn of the collection loop: whether the event ends collection and, if not,
      the fragments it adds. A failed read or the request's idle status ends it; a message
      of another request adds nothing. */
  method Absorb(msgId: string, e: PollEvent) returns (ends: bool, f: seq<string>)
    ensures ends == EndsCollection(msgId, e)
    ensures f == Contribution(msgId, e)
  {
    f := [];
    if e.ReadFailed? {
      return true, f;
    }
    var m := e.msg;
    if FromRequest(msgId, m) {
      if IsIdle(m.content) {
        return true, f;
      }
      f := Fragments(m.content);
    }
    ends := false;
  }

  /** The collection loop of `execute_code`. It reads events until one ends collection
      and returns the fragments and the number of events read before the stopping one. */
  method Collect(msgId: string, evs: seq<PollEvent>) returns (parts: seq<string>, stop: nat)
    ensures stop == CollectionEnd(msgId, evs)
    ensures parts == Collected(msgId, evs)
  {
    parts, stop := [], 0;
    var rest := evs;
    while rest != []
      invariant Collected(msgId, evs) == parts + Collected(msgId, rest)
      invariant CollectionEnd(msgId, evs) == stop + CollectionEnd(msgId, rest)
      decreases |rest|
    {
      var ends, f := Absorb(msgId, rest[0]);
      if ends {
        break;
      }
      parts := parts + f;
      stop := stop + 1;
      rest := rest[1..];
    }
  }

  /** The `content` of the shell reply: its `status`, absent when the reply has none, and
      its `ename` and `evalue` (an absent `evalue` read as `''`). */
  datatype ShellReply = ShellReply(status: Option<string>, ename: Option<string>, evalue: string)

  /** The report once collection is over. A reply whose status is `error` wins over the
      fragments; no fragments gives the no-output report; otherwise the fragments joined
      by newlines. A reply without status raises `KeyError('status')`. */
  function FinalReport(reply: ShellReply, parts: seq<string>): (r: string)
    ensures reply.status == Some("error") ==> r == CrossMark + " " + reply.ename.GetOr("Error") + ": " + reply.evalue
    ensures reply.status.Some? && reply.status != Some("error") && parts == [] ==> r == NoOutput
    ensures reply.status.Some? && reply.status != Some("error") && parts != [] ==> r == Join(parts, "\n")
  {
    if reply.status.None? then ExecutionFailed("'status'")
    else if reply.status.value == "error" then CrossMark + " " + reply.ename.GetOr("Error") + ": " + reply.evalue
    else if parts == [] then NoOutput
    else Join(parts, "\n")
  }

  /** An error reply decides the report whatever was collected. */
  lemma ReplyIsAuthoritative(reply: ShellReply, parts: seq<string>, parts': seq<string>)
    requires reply.status == Some("error")
    ensures FinalReport(reply, parts) == FinalReport(reply, parts')
  {
  }

  /** A report is never the empty string, and without an error reply it begins with the
      first collected fragment. */
  lemma FinalReportNonEmpty(reply: ShellReply, msgId: string, evs: seq<PollEvent>)
    ensures FinalReport(reply, Collected(msgId, evs)) != ""
    ensures reply.status.Some? && reply.status != Some("error") && Collected(msgId, evs) != [] ==>
              var first := Collected(msgId, evs)[0];
              |first| <= |FinalReport(reply, Collected(msgId, evs))| &&
              FinalReport(reply, Collected(msgId, evs))[..|first|] == first
  {
    CollectedNonblank(msgId, evs);
  }
}
