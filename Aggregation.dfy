/** The loop of `execute_python` that reads IOPub messages after the code is
    sent and folds the ones answering the request into outputs, errors and
    images (src/pykernel_mcp/server.py:177-207, pykernel_mcp.py:71-100).

    The channel is a finite sequence of events. After the last event the
    channel stays silent, so the next 30-second wait expires: running out of
    events behaves as a `Timeout` event. */
module Aggregation {
  import opened Wrappers
  import opened Protocol

  /** The three lists the loop builds. */
  datatype Collected = Collected(outputs: seq<string>, errors: seq<string>, images: seq<string>)

  const NothingCollected: Collected := Collected([], [], [])

  /** Why the loop stopped: the request's idle status, a receive timeout, or
      a `KeyError` on a content key the message lacks (which the source does
      not catch, so `execute_python` fails). */
  datatype Ending = Idle | TimedOut | MissingKey(key: string)

  /** The loop's result: what it collected, why it stopped, and how many
      events it took from the channel (the rest stay queued). */
  datatype Drained = Drained(collected: Collected, ending: Ending, consumed: nat)

  /** One iteration either keeps waiting or leaves the loop. */
  datatype Progress = Continue(collected: Collected) | Stop(collected: Collected, ending: Ending)

  /** `content["data"].get("text/plain", "")`. */
  function TextPlain(data: map<string, string>): string
  {
    if "text/plain" in data then data["text/plain"] else ""
  }

  /** One iteration of the loop body on event `ev`. The `display_data` branch
      exists only in the packaged server. */
  function StepOn(v: Variant, requestId: string, acc: Collected, ev: Event): Progress
  {
    match ev
    case Timeout => Stop(acc.(errors := acc.errors + [TimeoutLine]), TimedOut)
    case Msg(parent, msgType, content) =>
      if parent != Some(requestId) then Continue(acc)
      else if msgType == "stream" then
        if content.text.None? then Stop(acc, MissingKey("text"))
        else Continue(acc.(outputs := acc.outputs + [content.text.value]))
      else if msgType == "display_data" && v == Packaged then
        if content.data.None? then Stop(acc, MissingKey("data"))
        else if "image/png" in content.data.value then
          Continue(acc.(images := acc.images + [content.data.value["image/png"]]))
        else Continue(acc)
      else if msgType == "execute_result" then
        if content.data.None? then Stop(acc, MissingKey("data"))
        else Continue(acc.(outputs := acc.outputs + [TextPlain(content.data.value)]))
      else if msgType == "error" then
        if content.traceback.None? then Stop(acc, MissingKey("traceback"))
        else Continue(acc.(errors := acc.errors + content.traceback.value))
      else if msgType == "status" then
        if content.executionState.None? then Stop(acc, MissingKey("execution_state"))
        else if content.executionState.value == "idle" then Stop(acc, Idle)
        else Continue(acc)
      else Continue(acc)
  }

  /** The loop run on the events `s`, starting from `acc`. */
  function Drain(v: Variant, requestId: string, s: seq<Event>, acc: Collected): (d: Drained)
    ensures d.consumed <= |s|
    ensures acc.outputs <= d.collected.outputs && acc.images <= d.collected.images
    ensures acc.errors <= d.collected.errors
    decreases |s|
  {
    if s == [] then Drained(acc.(errors := acc.errors + [TimeoutLine]), TimedOut, 0)
    else match StepOn(v, requestId, acc, s[0])
      case Stop(a, e) => Drained(a, e, 1)
      case Continue(a) =>
        var d := Drain(v, requestId, s[1..], a);
        d.(consumed := d.consumed + 1)
  }

  /** What the loop returns for a request whose replies arrive as `events`. */
  function Fold(v: Variant, requestId: string, events: seq<Event>): Drained
  {
    Drain(v, requestId, events, NothingCollected)
  }

  function Shifted(d: Drained, k: nat): Drained
  {
    d.(consumed := d.consumed + k)
  }

  /** The `while True` loop itself, appending to the three lists in place. */
  method CollectReplies(v: Variant, requestId: string, events: seq<Event>)
    returns (outputs: seq<string>, errors: seq<string>, images: seq<string>, ending: Ending, consumed: nat)
    ensures Drained(Collected(outputs, errors, images), ending, consumed) == Fold(v, requestId, events)
  {
    outputs, errors, images := [], [], [];
    ending, consumed := Idle, 0;
    var i := 0;
    while true
      invariant i <= |events|
      invariant Shifted(Drain(v, requestId, events[i..], Collected(outputs, errors, images)), i)
                == Fold(v, requestId, events)
      decreases |events| - i
    {
      if i == |events| {
        // the channel stays silent and the wait expires
        errors := errors + [TimeoutLine];
        ending, consumed := TimedOut, i;
        break;
      }
      var ev := events[i];
      assert events[i..][1..] == events[i + 1..];
      i := i + 1;
      if ev.Timeout? {
        errors := errors + [TimeoutLine];
        ending, consumed := TimedOut, i;
        break;
      }
      if ev.parentId != Some(requestId) {
        continue;
      }
      var content := ev.content;
      if ev.msgType == "stream" {
        if content.text.None? {
          ending, consumed := MissingKey("text"), i;
          break;
        }
        outputs := outputs + [content.text.value];
      } else if ev.msgType == "display_data" && v == Packaged {
        if content.data.None? {
          ending, consumed := MissingKey("data"), i;
          break;
        }
        if "image/png" in content.data.value {
          images := images + [content.data.value["image/png"]];
        }
      } else if ev.msgType == "execute_result" {
        if content.data.None? {
          ending, consumed := MissingKey("data"), i;
          break;
        }
        outputs := outputs + [TextPlain(content.data.value)];
      } else if ev.msgType == "error" {
        if content.traceback.None? {
          ending, consumed := MissingKey("traceback"), i;
          break;
        }
        errors := errors + content.traceback.value;
      } else if ev.msgType == "status" {
        if content.executionState.None? {
          ending, consumed := MissingKey("execution_state"), i;
          break;
        }
        if content.executionState.value == "idle" {
          ending, consumed := Idle, i;
          break;
        }
      }
    }
  }

  // ---------------------------------------------------------------------
  // A reference reading of the loop, event by event: what each event adds
  // to each list and whether it ends the loop.

  /** The output text an event contributes. */
  function OutputOf(requestId: string, ev: Event): seq<string>
  {
    if !Answers(requestId, ev) then []
    else if ev.msgType == "stream" && ev.content.text.Some? then [ev.content.text.value]
    else if ev.msgType == "execute_result" && ev.content.data.Some? then [TextPlain(ev.content.data.value)]
    else []
  }

  /** The traceback lines an event contributes. */
  function ErrorsOf(requestId: string, ev: Event): seq<string>
  {
    if Answers(requestId, ev) && ev.msgType == "error" && ev.content.traceback.Some?
    then ev.content.traceback.value
    else []
  }

  /** The PNG payload an event contributes; only the packaged server keeps images. */
  function ImageOf(v: Variant, requestId: string, ev: Event): seq<string>
  {
    if v == Packaged && Answers(requestId, ev) && ev.msgType == "display_data"
       && ev.content.data.Some? && "image/png" in ev.content.data.value
    then [ev.content.data.value["image/png"]]
    else []
  }

  /** The ending an event causes, if it is terminal. */
  function EndingOf(v: Variant, requestId: string, ev: Event): Option<Ending>
  {
    if ev.Timeout? then Some(TimedOut)
    else if !Answers(requestId, ev) then None
    else
      var c := ev.content;
      match ev.msgType
      case "stream" => if c.text.None? then Some(MissingKey("text")) else None
      case "display_data" => if v == Packaged && c.data.None? then Some(MissingKey("data")) else None
      case "execute_result" => if c.data.None? then Some(MissingKey("data")) else None
      case "error" => if c.traceback.None? then Some(MissingKey("traceback")) else None
      case "status" =>
        if c.executionState.None? then Some(MissingKey("execution_state"))
        else if c.executionState.value == "idle" then Some(Idle)
        else None
      case _ => None
  }

  function AllOutputs(requestId: string, s: seq<Event>): seq<string>
  {
    if s == [] then [] else OutputOf(requestId, s[0]) + AllOutputs(requestId, s[1..])
  }

  function AllErrors(requestId: string, s: seq<Event>): seq<string>
  {
    if s == [] then [] else ErrorsOf(requestId, s[0]) + AllErrors(requestId, s[1..])
  }

  function AllImages(v: Variant, requestId: string, s: seq<Event>): seq<string>
  {
    if s == [] then [] else ImageOf(v, requestId, s[0]) + AllImages(v, requestId, s[1..])
  }

  /** The timeout notice, for the ending that adds it. */
  function Notice(e: Ending): seq<string>
  {
    if e == TimedOut then [TimeoutLine] else []
  }

  /** One iteration agrees with the reference reading: it appends exactly the
      event's contributions, and stops exactly on a terminal event. */
  lemma StepAgrees(v: Variant, requestId: string, acc: Collected, ev: Event)
    ensures StepOn(v, requestId, acc, ev).collected == Collected(
      acc.outputs + OutputOf(requestId, ev),
      acc.errors + ErrorsOf(requestId, ev) + (if ev.Timeout? then [TimeoutLine] else []),
      acc.images + ImageOf(v, requestId, ev))
    ensures StepOn(v, requestId, acc, ev).Stop? <==> EndingOf(v, requestId, ev).Some?
    ensures StepOn(v, requestId, acc, ev).Stop? ==>
      StepOn(v, requestId, acc, ev).ending == EndingOf(v, requestId, ev).value
  {
  }

  /** The reference lists of a non-empty prefix split at its first event. */
  lemma SplitFirst(v: Variant, requestId: string, s: seq<Event>, n: nat)
    requires 1 <= n <= |s|
    ensures AllOutputs(requestId, s[..n]) == OutputOf(requestId, s[0]) + AllOutputs(requestId, s[1..][..n - 1])
    ensures AllErrors(requestId, s[..n]) == ErrorsOf(requestId, s[0]) + AllErrors(requestId, s[1..][..n - 1])
    ensures AllImages(v, requestId, s[..n]) == ImageOf(v, requestId, s[0]) + AllImages(v, requestId, s[1..][..n - 1])
  {
    assert s[..n][0] == s[0];
    assert s[..n][1..] == s[1..][..n - 1];
  }

  /** The characterisation of `DrainCollects`, for events `s` and start `acc`. */
  ghost predicate CollectsInOrder(v: Variant, requestId: string, s: seq<Event>, acc: Collected)
  {
    var d := Drain(v, requestId, s, acc);
    var seen := s[..d.consumed];
    d.collected == Collected(
      acc.outputs + AllOutputs(requestId, seen),
      acc.errors + AllErrors(requestId, seen) + Notice(d.ending),
      acc.images + AllImages(v, requestId, seen))
  }

  /** What the loop collects, in arrival order: each list is the
      concatenation of the contributions of the events it consumed, and the
      error list ends with the timeout notice exactly when a timeout ended it. */
  lemma {:induction false} DrainCollects(v: Variant, requestId: string, s: seq<Event>, acc: Collected)
    ensures var d := Drain(v, requestId, s, acc);
      var seen := s[..d.consumed];
      d.collected == Collected(
        acc.outputs + AllOutputs(requestId, seen),
        acc.errors + AllErrors(requestId, seen) + Notice(d.ending),
        acc.images + AllImages(v, requestId, seen))
    decreases |s|
  {
    if s == [] {
      assert s[..0] == [];
    } else if StepOn(v, requestId, acc, s[0]).Stop? {
      CollectsWhenStopping(v, requestId, s, acc);
    } else {
      var a := StepOn(v, requestId, acc, s[0]).collected;
      DrainCollects(v, requestId, s[1..], a);
      CollectsWhenContinuing(v, requestId, s, acc);
    }
  }

  lemma CollectsWhenStopping(v: Variant, requestId: string, s: seq<Event>, acc: Collected)
    requires s != [] && StepOn(v, requestId, acc, s[0]).Stop?
    ensures CollectsInOrder(v, requestId, s, acc)
  {
    StepAgrees(v, requestId, acc, s[0]);
    SplitFirst(v, requestId, s, 1);
    assert s[1..][..0] == [];
  }

  lemma CollectsWhenContinuing(v: Variant, requestId: string, s: seq<Event>, acc: Collected)
    requires s != [] && StepOn(v, requestId, acc, s[0]).Continue?
    requires CollectsInOrder(v, requestId, s[1..], StepOn(v, requestId, acc, s[0]).collected)
    ensures CollectsInOrder(v, requestId, s, acc)
  {
    var d := Drain(v, requestId, s, acc);
    var a := StepOn(v, requestId, acc, s[0]).collected;
    var rest := Drain(v, requestId, s[1..], a);
    assert d == rest.(consumed := rest.consumed + 1);
    StepAgrees(v, requestId, acc, s[0]);
    SplitFirst(v, requestId, s, d.consumed);
    var tail := s[1..][..rest.consumed];
    var seen := s[..d.consumed];
    assert !s[0].Timeout?;
    AppendAssoc(acc.outputs, OutputOf(requestId, s[0]), AllOutputs(requestId, tail));
    AppendAssoc(acc.images, ImageOf(v, requestId, s[0]), AllImages(v, requestId, tail));
    AppendAssoc(acc.errors, ErrorsOf(requestId, s[0]), AllErrors(requestId, tail));
    AppendAssoc(acc.errors + ErrorsOf(requestId, s[0]), AllErrors(requestId, tail), Notice(d.ending));
  }

  /** Regrouping a concatenation; each call names the one instance the
      proof above needs, which keeps that proof within its resource limit. */
  lemma AppendAssoc<T>(x: seq<T>, y: seq<T>, z: seq<T>)
    ensures x + y + z == x + (y + z)
  {
  }

  /** The loop stops at the first terminal event (a timeout, the request's
      idle status, or a message lacking a key it needs), with that event's
      ending; when no event is terminal it takes them all and times out. */
  lemma {:induction false} DrainStopsAtFirstTerminal(v: Variant, requestId: string, s: seq<Event>, acc: Collected)
    ensures var d := Drain(v, requestId, s, acc);
      && (forall j :: 0 <= j < d.consumed - 1 ==> EndingOf(v, requestId, s[j]).None?)
      && if d.consumed > 0 && EndingOf(v, requestId, s[d.consumed - 1]).Some?
         then d.ending == EndingOf(v, requestId, s[d.consumed - 1]).value
         else d.consumed == |s| && d.ending == TimedOut
    decreases |s|
  {
    if s != [] {
      StepAgrees(v, requestId, acc, s[0]);
      var p := StepOn(v, requestId, acc, s[0]);
      if p.Continue? {
        DrainStopsAtFirstTerminal(v, requestId, s[1..], p.collected);
        var rest := Drain(v, requestId, s[1..], p.collected);
        var d := Drain(v, requestId, s, acc);
        assert d.consumed == rest.consumed + 1;
        forall j | 0 <= j < d.consumed - 1
          ensures EndingOf(v, requestId, s[j]).None?
        {
          if j > 0 {
            assert s[j] == s[1..][j - 1];
          }
        }
        if rest.consumed > 0 {
          assert s[d.consumed - 1] == s[1..][rest.consumed - 1];
        }
      }
    }
  }

  /** The loop ends normally exactly on the first terminal event, when that
      is the request's idle status. */
  lemma EndsIdleIff(v: Variant, requestId: string, events: seq<Event>)
    ensures var d := Fold(v, requestId, events);
      d.ending == Idle <==>
        exists k :: 0 <= k < |events| && EndingOf(v, requestId, events[k]) == Some(Idle)
          && forall j :: 0 <= j < k ==> EndingOf(v, requestId, events[j]).None?
  {
    var d := Fold(v, requestId, events);
    DrainStopsAtFirstTerminal(v, requestId, events, NothingCollected);
    if d.ending == Idle {
      assert EndingOf(v, requestId, events[d.consumed - 1]) == Some(Idle);
    }
    if exists k :: 0 <= k < |events| && EndingOf(v, requestId, events[k]) == Some(Idle)
          && forall j :: 0 <= j < k ==> EndingOf(v, requestId, events[j]).None? {
      var k :| 0 <= k < |events| && EndingOf(v, requestId, events[k]) == Some(Idle)
          && forall j :: 0 <= j < k ==> EndingOf(v, requestId, events[j]).None?;
    }
  }

  /** The messages of `s` in order, without those answering another request. */
  function WithoutForeign(requestId: string, s: seq<Event>): seq<Event>
  {
    if s == [] then []
    else (if s[0].Msg? && s[0].parentId != Some(requestId) then [] else [s[0]])
         + WithoutForeign(requestId, s[1..])
  }

  /** Messages answering another request, or carrying no parent id, change
      nothing and do not end the loop: dropping them all from the channel
      leaves what is collected and why the loop stops unchanged. */
  lemma {:induction false} DrainIgnoresForeign(v: Variant, requestId: string, s: seq<Event>, acc: Collected)
    ensures var d := Drain(v, requestId, s, acc);
      var f := Drain(v, requestId, WithoutForeign(requestId, s), acc);
      d.collected == f.collected && d.ending == f.ending
    decreases |s|
  {
    if s != [] {
      var w := WithoutForeign(requestId, s[1..]);
      if s[0].Msg? && s[0].parentId != Some(requestId) {
        assert WithoutForeign(requestId, s) == w;
        DrainIgnoresForeign(v, requestId, s[1..], acc);
      } else {
        assert WithoutForeign(requestId, s) == [s[0]] + w;
        assert ([s[0]] + w)[1..] == w;
        var p := StepOn(v, requestId, acc, s[0]);
        if p.Continue? {
          DrainIgnoresForeign(v, requestId, s[1..], p.collected);
        }
      }
    }
  }

  /** Replies to earlier requests still queued on the channel are skipped:
      the loop's result is that on the rest, with the stale messages also
      counted as consumed. */
  lemma {:induction false} StaleRepliesSkipped(v: Variant, requestId: string, stale: seq<Event>, rest: seq<Event>, acc: Collected)
    requires forall k :: 0 <= k < |stale| ==> stale[k].Msg? && stale[k].parentId != Some(requestId)
    ensures Drain(v, requestId, stale + rest, acc) == Shifted(Drain(v, requestId, rest, acc), |stale|)
    decreases |stale|
  {
    if stale != [] {
      assert (stale + rest)[0] == stale[0];
      assert (stale + rest)[1..] == stale[1..] + rest;
      assert StepOn(v, requestId, acc, stale[0]) == Continue(acc);
      StaleRepliesSkipped(v, requestId, stale[1..], rest, acc);
      var d := Drain(v, requestId, stale[1..] + rest, acc);
      assert Drain(v, requestId, stale + rest, acc) == d.(consumed := d.consumed + 1);
    } else {
      assert stale + rest == rest;
    }
  }

  /** The standalone server has no `display_data` branch: no event
      contributes an image there. */
  lemma {:induction false} StandaloneImagesEmpty(requestId: string, s: seq<Event>)
    ensures AllImages(Standalone, requestId, s) == []
    decreases |s|
  {
    if s != [] {
      StandaloneImagesEmpty(requestId, s[1..]);
    }
  }

  /** So the standalone server's loop never keeps an image. */
  lemma StandaloneKeepsNoImages(requestId: string, events: seq<Event>)
    ensures Fold(Standalone, requestId, events).collected.images == []
  {
    DrainCollects(Standalone, requestId, events, NothingCollected);
    var d := Fold(Standalone, requestId, events);
    StandaloneImagesEmpty(requestId, events[..d.consumed]);
  }
}
