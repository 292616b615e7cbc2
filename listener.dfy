/**
 * The per-machine listener: classifies each decoded frame and dispatches it
 * to the shared store, and tracks the session id the remote side announces.
 */
module Listener {
  import opened Wrappers
  import opened Messages
  import opened Store
  import LogView

  /**
   * One change of `lastMessage`: the decoded message (None when there is no
   * message or its text is empty) and the two clock readings taken by
   * `addData` and `addLogs`. Socket frames that arrive between two renders
   * may collapse into a single change, so a Frame is a handled frame, not
   * necessarily every frame received.
   */
  datatype Frame = Frame(message: Option<Message>, dataTime: int, logTime: int)

  /** A decoded message whose `data` is missing makes the handler throw at `message.data.sid`. */
  predicate WellFormed(f: Frame)
  {
    f.message.Some? ==> !f.message.value.data.Absent?
  }

  predicate AllWellFormed(frames: seq<Frame>)
  {
    forall i :: 0 <= i < |frames| ==> WellFormed(frames[i])
  }

  /** What handling frames does: the listener's sid afterwards, and the records appended to each stream. */
  datatype Effect = Effect(sid: string, data: seq<DataRecord>, logs: seq<LogRecord>)

  /** The effect of one frame on a listener for `machineId` whose sid is `sid`. */
  function Handle(machineId: string, sid: string, f: Frame): (e: Effect)
    requires WellFormed(f)
    ensures f.message.None? ==> e == Effect(sid, [], [])
    ensures e.sid == if f.message.Some? && Truthy(SidOf(f.message.value.data))
                     then SidOf(f.message.value.data).value else sid
    ensures |e.data| <= 1 && |e.logs| <= 1
    ensures e.data != [] <==> f.message.Some? && Truthy(PromptIdOf(f.message.value.data))
    ensures e.data != [] ==>
              e.data[0] == DataRecord(PromptIdOf(f.message.value.data).value, f.dataTime, f.message.value)
    ensures e.logs != [] <==> f.message.Some? && f.message.value.event == LogsEvent
    ensures e.logs != [] ==> e.logs[0] == LogRecord(machineId, f.message.value.data, f.logTime)
  {
    match f.message
    case None => Effect(sid, [], [])
    case Some(m) =>
      var s, p := SidOf(m.data), PromptIdOf(m.data);
      Effect(if Truthy(s) then s.value else sid,
             if Truthy(p) then [DataRecord(p.value, f.dataTime, m)] else [],
             if m.event == LogsEvent then [LogRecord(machineId, m.data, f.logTime)] else [])
  }

  /** The combined effect of a listener handling `frames` in arrival order. */
  function Replay(machineId: string, sid: string, frames: seq<Frame>): (e: Effect)
    requires AllWellFormed(frames)
    ensures forall r :: r in e.logs ==> r.machineId == machineId
    decreases frames
  {
    if frames == [] then Effect(sid, [], [])
    else
      var first := Handle(machineId, sid, frames[0]);
      var rest := Replay(machineId, first.sid, frames[1..]);
      Effect(rest.sid, first.data + rest.data, first.logs + rest.logs)
  }

  /** The number of frames whose `data.prompt_id` is truthy. */
  function PromptFrames(frames: seq<Frame>): nat
  {
    if frames == [] then 0
    else
      var m := frames[0].message;
      (if m.Some? && Truthy(PromptIdOf(m.value.data)) then 1 else 0) + PromptFrames(frames[1..])
  }

  /** The number of frames whose event is LOGS. */
  function LogFrames(frames: seq<Frame>): nat
  {
    if frames == [] then 0
    else
      var m := frames[0].message;
      (if m.Some? && m.value.event == LogsEvent then 1 else 0) + LogFrames(frames[1..])
  }

  /** The latest truthy `data.sid` among `frames`, or `sid` when none carries one. */
  function LatestSid(sid: string, frames: seq<Frame>): string
  {
    if frames == [] then sid
    else
      var m := frames[|frames| - 1].message;
      if m.Some? && Truthy(SidOf(m.value.data)) then SidOf(m.value.data).value
      else LatestSid(sid, frames[..|frames| - 1])
  }

  lemma WellFormedTail(frames: seq<Frame>)
    requires frames != [] && AllWellFormed(frames)
    ensures WellFormed(frames[0]) && AllWellFormed(frames[1..])
  {
    forall i | 0 <= i < |frames[1..]| ensures WellFormed(frames[1..][i]) {
      assert frames[1..][i] == frames[i + 1];
    }
  }

  lemma WellFormedInit(frames: seq<Frame>)
    requires frames != [] && AllWellFormed(frames)
    ensures WellFormed(frames[|frames| - 1]) && AllWellFormed(frames[..|frames| - 1])
  {
    var init := frames[..|frames| - 1];
    forall i | 0 <= i < |init| ensures WellFormed(init[i]) {
      assert init[i] == frames[i];
    }
  }

  lemma WellFormedSnoc(frames: seq<Frame>, f: Frame)
    requires AllWellFormed(frames) && WellFormed(f)
    ensures AllWellFormed(frames + [f])
  {
    forall i | 0 <= i < |frames + [f]| ensures WellFormed((frames + [f])[i]) {
      if i < |frames| { assert (frames + [f])[i] == frames[i]; }
    }
  }

  /** Every frame adds at most one record to each stream: one per prompt frame, one per LOGS frame. */
  lemma {:induction false} ReplayCounts(machineId: string, sid: string, frames: seq<Frame>)
    requires AllWellFormed(frames)
    ensures |Replay(machineId, sid, frames).data| == PromptFrames(frames)
    ensures |Replay(machineId, sid, frames).logs| == LogFrames(frames)
    decreases frames
  {
    if frames != [] {
      assert WellFormed(frames[0]);
      var first := Handle(machineId, sid, frames[0]);
      WellFormedTail(frames);
      ReplayCounts(machineId, first.sid, frames[1..]);
    }
  }

  /** Handling one more frame extends the effect of the frames before it. */
  lemma {:induction false} ReplaySnoc(machineId: string, sid: string, frames: seq<Frame>, f: Frame)
    requires AllWellFormed(frames) && WellFormed(f)
    ensures AllWellFormed(frames + [f])
    ensures var e := Replay(machineId, sid, frames);
            var l := Handle(machineId, e.sid, f);
            Replay(machineId, sid, frames + [f]) == Effect(l.sid, e.data + l.data, e.logs + l.logs)
    decreases frames
  {
    WellFormedSnoc(frames, f);
    if frames == [] {
      assert frames + [f] == [f];
      assert [f][1..] == [];
    } else {
      assert WellFormed(frames[0]);
      var first := Handle(machineId, sid, frames[0]);
      assert (frames + [f])[1..] == frames[1..] + [f];
      WellFormedTail(frames);
      ReplaySnoc(machineId, first.sid, frames[1..], f);
      var e := Replay(machineId, first.sid, frames[1..]);
      var l := Handle(machineId, e.sid, f);
      assert first.data + (e.data + l.data) == (first.data + e.data) + l.data;
      assert first.logs + (e.logs + l.logs) == (first.logs + e.logs) + l.logs;
    }
  }

  /** After a run of frames the listener's sid is the latest truthy sid it saw. */
  lemma {:induction false} ReplaySid(machineId: string, sid: string, frames: seq<Frame>)
    requires AllWellFormed(frames)
    ensures Replay(machineId, sid, frames).sid == LatestSid(sid, frames)
  {
    if frames != [] {
      var n := |frames| - 1;
      var init := frames[..n];
      assert init + [frames[n]] == frames;
      WellFormedInit(frames);
      assert WellFormed(frames[n]);
      ReplaySnoc(machineId, sid, init, frames[n]);
      ReplaySid(machineId, sid, init);
    }
  }

  /** A listener's frames never change another machine's log view. */
  lemma NoCrossContamination(logs: seq<LogRecord>, a: string, b: string, sid: string, frames: seq<Frame>)
    requires a != b && AllWellFormed(frames)
    ensures LogView.MachineLogs(logs + Replay(a, sid, frames).logs, b) == LogView.MachineLogs(logs, b)
  {
    LogView.ForeignAppend(logs, Replay(a, sid, frames).logs, b);
  }

  /** The per-machine listener. The store is shared by every listener of the page. */
  class MachineListener {
    const machineId: string
    const store: EventStore
    var sid: string

    /** `useState("")`: the sid starts empty. */
    constructor (machineId: string, store: EventStore)
      ensures this.machineId == machineId && this.store == store && sid == ""
    {
      this.machineId := machineId;
      this.store := store;
      sid := "";
    }

    /** The `lastMessage` effect: update the sid, then dispatch to the store. */
    method OnMessage(f: Frame)
      requires WellFormed(f)
      modifies this, store
      ensures var e := Handle(machineId, old(sid), f);
              && sid == e.sid
              && store.data == old(store.data) + e.data
              && store.logs == old(store.logs) + e.logs
    {
      if f.message.None? {
        return;
      }
      var message := f.message.value;
      var s := SidOf(message.data);
      if Truthy(s) {
        sid := s.value;
      }
      var p := PromptIdOf(message.data);
      if Truthy(p) {
        store.AddData(p.value, message, f.dataTime);
      }
      if message.event == LogsEvent {
        store.AddLogs(machineId, message.data, f.logTime);
      }
    }
  }
}
