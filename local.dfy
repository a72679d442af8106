/** The local-audio backend: a worker that owns the audio channel and drains a FIFO of command
    messages, and the producer object whose methods put those messages on the FIFO. */
module LocalBackend {
  import opened Base
  import opened Songs

  /** `Message.Type` */
  datatype Kind = VolumeSet | VolumeDelta | PlayPause | ForcePlay | Stop | Exit | Play

  /** A message: its type and an untyped payload, a number for the two volume types. */
  datatype Message = Message(kind: Kind, payload: Option<real>)

  function PlayPauseMessage(): (m: Message)
    ensures m.kind == PlayPause && WellFormed(m)
  {
    Message(PlayPause, None)
  }

  function StopMessage(): (m: Message)
    ensures m.kind == Stop && WellFormed(m)
  {
    Message(Stop, None)
  }

  function ExitMessage(): (m: Message)
    ensures m.kind == Exit && WellFormed(m)
  {
    Message(Exit, None)
  }

  function ForcePlayMessage(): (m: Message)
    ensures m.kind == ForcePlay && WellFormed(m)
  {
    Message(ForcePlay, None)
  }

  function VolumeSetMessage(value: real): (m: Message)
    ensures m.kind == VolumeSet && m.payload == Some(value) && WellFormed(m)
  {
    Message(VolumeSet, Some(value))
  }

  function VolumeDeltaMessage(value: real): (m: Message)
    ensures m.kind == VolumeDelta && m.payload == Some(value) && WellFormed(m)
  {
    Message(VolumeDelta, Some(value))
  }

  /** The worker reads a number from the payload of the two volume messages. */
  predicate WellFormed(m: Message) {
    (m.kind == VolumeSet || m.kind == VolumeDelta) ==> m.payload.Some?
  }

  predicate AllWellFormed(ms: seq<Message>) {
    forall i :: 0 <= i < |ms| ==> WellFormed(ms[i])
  }

  predicate NoExit(ms: seq<Message>) {
    forall i :: 0 <= i < |ms| ==> ms[i].kind != Exit
  }

  /** `State` */
  datatype State = Playing | Paused | Stopped

  /** Whether the worker loop is still running, has returned on EXIT, or has died with the
      `IndexError` of popping an empty song list. */
  datatype Status = Running | Returned | Raised

  /** The calls made on the audio channel, recorded in order. */
  datatype ChannelCall =
    | ChannelPlay(song: Song)
    | ChannelPause
    | ChannelUnpause
    | ChannelStop
    | ChannelSetVolume(level: real)

  /** A fresh channel plays at full volume. */
  const InitialVolume: real := 1.0

  /** The worker's state as a value: its own variables, the shared song list's contents and the
      channel calls made so far. */
  datatype Worker = Worker(state: State, volume: real, status: Status, songs: seq<Song>, channel: seq<ChannelCall>)

  /** The song of the most recent `play` call on the channel. */
  function LastPlayed(channel: seq<ChannelCall>): Option<Song>
    decreases |channel|
  {
    if channel == [] then None
    else if channel[|channel| - 1].ChannelPlay? then Some(channel[|channel| - 1].song)
    else LastPlayed(channel[..|channel| - 1])
  }

  lemma LastPlayedSnoc(channel: seq<ChannelCall>, c: ChannelCall)
    ensures LastPlayed(channel + [c]) == if c.ChannelPlay? then Some(c.song) else LastPlayed(channel)
  {
    assert (channel + [c])[..|channel|] == channel;
  }

  /** The worker's invariant: while playing or paused, the last track started is the head of
      the queue. */
  predicate HeadIsCurrent(w: Worker) {
    w.state != Stopped ==> w.songs != [] && LastPlayed(w.channel) == Some(w.songs[0])
  }

  /** One message, dispatched as the worker loop does. No message changes the song list; only
      EXIT ends the loop; a handler makes at most one channel call; the volume follows the two
      volume messages and nothing else. */
  function Handle(w: Worker, m: Message): (r: Worker)
    requires w.status == Running && WellFormed(m)
    ensures r.songs == w.songs
    ensures r.status == (if m.kind == Exit then Returned else Running)
    ensures w.channel <= r.channel && |r.channel| <= |w.channel| + 1
    ensures m.kind == VolumeSet ==> r.volume == m.payload.value && r.state == w.state
    ensures m.kind == VolumeDelta ==> r.volume == w.volume + m.payload.value && r.state == w.state
    ensures m.kind != VolumeSet && m.kind != VolumeDelta ==> r.volume == w.volume
    ensures m.kind == Stop ==> r.state == Stopped
    ensures m.kind == Exit || m.kind == Play ==> r.state == w.state && r.channel == w.channel
  {
    match m.kind
    case VolumeSet =>
      w.(volume := m.payload.value, channel := w.channel + [ChannelSetVolume(m.payload.value)])
    case VolumeDelta =>
      var v := w.volume + m.payload.value;
      w.(volume := v, channel := w.channel + [ChannelSetVolume(v)])
    case Stop =>
      w.(state := Stopped, channel := w.channel + [ChannelStop])
    case PlayPause =>
      if w.state == Stopped then
        if w.songs != [] then w.(state := Playing, channel := w.channel + [ChannelPlay(w.songs[0])]) else w
      else if w.state == Paused then w.(state := Playing, channel := w.channel + [ChannelUnpause])
      else w.(state := Paused, channel := w.channel + [ChannelPause])
    case ForcePlay =>
      if w.songs != [] then w.(state := Playing, channel := w.channel + [ChannelPlay(w.songs[0])]) else w
    case Exit =>
      w.(status := Returned)
    case Play =>
      w
  }

  /** The end-of-track event. While playing, the finished head is removed; the next song, if
      any, is started, otherwise the worker stops. In any other state nothing changes. */
  function OnEndEvent(w: Worker): (r: Worker)
    requires w.status == Running
    ensures w.state != Playing ==> r == w
    ensures w.state == Playing && w.songs == [] ==> r == w.(status := Raised)
    ensures w.state == Playing && w.songs != [] ==>
      && r.songs == w.songs[1..]
      && r.status == Running
      && r.volume == w.volume
      && (r.songs != [] ==> r.state == Playing && r.channel == w.channel + [ChannelPlay(r.songs[0])])
      && (r.songs == [] ==> r.state == Stopped && r.channel == w.channel)
  {
    if w.state != Playing then w
    else if w.songs == [] then w.(status := Raised)
    else
      var rest := w.songs[1..];
      if rest != [] then w.(songs := rest, channel := w.channel + [ChannelPlay(rest[0])])
      else w.(songs := rest, state := Stopped)
  }

  /** PLAY_PAUSE pauses a playing track, resumes a paused one, and from Stopped starts the
      head without removing it, or stays stopped on an empty list. */
  lemma PlayPauseTransitions(w: Worker)
    requires w.status == Running
    ensures var r := Handle(w, PlayPauseMessage());
      && (w.state == Playing ==> r.state == Paused && r.channel == w.channel + [ChannelPause])
      && (w.state == Paused ==> r.state == Playing && r.channel == w.channel + [ChannelUnpause])
      && (w.state == Stopped && w.songs != [] ==> r.state == Playing && r.channel == w.channel + [ChannelPlay(w.songs[0])])
      && (w.state == Stopped && w.songs == [] ==> r == w)
  {
  }

  /** FORCE_PLAY starts the head without removing it, and does nothing on an empty list. */
  lemma ForcePlayTransitions(w: Worker)
    requires w.status == Running
    ensures var r := Handle(w, ForcePlayMessage());
      && (w.songs != [] ==> r.state == Playing && r.songs == w.songs && r.channel == w.channel + [ChannelPlay(w.songs[0])])
      && (w.songs == [] ==> r == w)
  {
  }

  /** Two PLAY_PAUSE messages bring a playing or paused worker back to the same state. */
  lemma PlayPauseTwice(w: Worker)
    requires w.status == Running && w.state != Stopped
    ensures Handle(Handle(w, PlayPauseMessage()), PlayPauseMessage()).state == w.state
  {
  }

  /** STOP a second time leaves the worker as the first one did, but for one more `stop` call
      recorded on the channel. */
  lemma StopIdempotent(w: Worker)
    requires w.status == Running
    ensures var once := Handle(w, StopMessage());
      && once.state == Stopped && once.songs == w.songs
      && Handle(once, StopMessage()) == once.(channel := once.channel + [ChannelStop])
  {
  }

  /** Setting the volume to 0.5 and then changing it by -0.2 leaves it at 0.3. */
  lemma VolumeSetThenDelta(w: Worker)
    requires w.status == Running
    ensures Handle(Handle(w, VolumeSetMessage(0.5)), VolumeDeltaMessage(-0.2)).volume == 0.3
  {
  }

  /** Every message keeps the invariant that the head of the queue is the current track. */
  lemma HandleKeepsHead(w: Worker, m: Message)
    requires w.status == Running && WellFormed(m) && HeadIsCurrent(w)
    ensures HeadIsCurrent(Handle(w, m))
  {
    var r := Handle(w, m);
    if r.channel != w.channel {
      assert r.channel == w.channel + [r.channel[|w.channel|]];
      LastPlayedSnoc(w.channel, r.channel[|w.channel|]);
    }
  }

  /** The end-of-track event keeps the invariant, and under it the event never pops an empty list. */
  lemma EndEventKeepsHead(w: Worker)
    requires w.status == Running && HeadIsCurrent(w)
    ensures HeadIsCurrent(OnEndEvent(w)) && OnEndEvent(w).status == Running
  {
    var r := OnEndEvent(w);
    if w.state == Playing && r.songs != [] {
      LastPlayedSnoc(w.channel, ChannelPlay(r.songs[0]));
    }
  }

  /** The worker together with the messages waiting on its FIFO. */
  datatype Pipeline = Pipeline(worker: Worker, pending: seq<Message>)

  /** One pass of the worker loop: take the oldest message if there is one (otherwise the
      `Empty` timeout), handle it, return on EXIT, then react to an end-of-track event if one
      was observed. */
  function Iteration(p: Pipeline, ended: bool): (r: Pipeline)
    requires p.worker.status == Running && AllWellFormed(p.pending)
    ensures AllWellFormed(r.pending)
    ensures r.pending == p.pending || (p.pending != [] && r.pending == p.pending[1..])
  {
    var p1 := if p.pending == [] then p else Pipeline(Handle(p.worker, p.pending[0]), p.pending[1..]);
    if p1.worker.status != Running || !ended then p1
    else p1.(worker := OnEndEvent(p1.worker))
  }

  /** The worker loop over a sequence of passes, `ended[i]` saying whether pass `i` observed an
      end-of-track event. Once the loop has returned or died, nothing more happens. */
  function RunLoop(p: Pipeline, ended: seq<bool>): (r: Pipeline)
    requires AllWellFormed(p.pending)
    ensures AllWellFormed(r.pending) && |r.pending| <= |p.pending|
    ensures p.worker.status != Running ==> r == p
    ensures r.worker.status != Running || |r.pending| + |ended| <= |p.pending| || r.pending == []
    decreases |ended|
  {
    if ended == [] || p.worker.status != Running then p
    else RunLoop(Iteration(p, ended[0]), ended[1..])
  }

  /** Messages are taken from the front of the FIFO: what remains after any run is a suffix of
      what was waiting. */
  lemma {:induction false} RunLoopConsumesPrefix(p: Pipeline, ended: seq<bool>)
    requires AllWellFormed(p.pending)
    ensures var r := RunLoop(p, ended);
      |r.pending| <= |p.pending| && r.pending == p.pending[|p.pending| - |r.pending|..]
    decreases |ended|
  {
    if ended != [] && p.worker.status == Running {
      var q := Iteration(p, ended[0]);
      RunLoopConsumesPrefix(q, ended[1..]);
    }
  }

  /** The messages handled one after another, none of them EXIT. */
  function HandleAll(w: Worker, ms: seq<Message>): (r: Worker)
    requires w.status == Running && AllWellFormed(ms) && NoExit(ms)
    ensures r.status == Running && r.songs == w.songs
    decreases |ms|
  {
    if ms == [] then w else HandleAll(Handle(w, ms[0]), ms[1..])
  }

  function NoEvents(n: nat): (ended: seq<bool>)
    ensures |ended| == n && forall i :: 0 <= i < n ==> !ended[i]
  {
    seq(n, i => false)
  }

  /** Without end-of-track events, `n` passes handle the `n` oldest messages in FIFO order. */
  lemma {:induction false} RunLoopInOrder(p: Pipeline, n: nat)
    requires p.worker.status == Running && AllWellFormed(p.pending)
    requires n <= |p.pending| && NoExit(p.pending[..n])
    ensures RunLoop(p, NoEvents(n)) == Pipeline(HandleAll(p.worker, p.pending[..n]), p.pending[n..])
    decreases n
  {
    if n > 0 {
      var m := p.pending[0];
      var q := Pipeline(Handle(p.worker, m), p.pending[1..]);
      assert p.pending[..n][0] == m;
      assert Iteration(p, false) == q;
      assert NoEvents(n)[1..] == NoEvents(n - 1);
      assert p.pending[1..][..n - 1] == p.pending[..n][1..];
      assert p.pending[1..][n - 1..] == p.pending[n..];
      RunLoopInOrder(q, n - 1);
    } else {
      assert p.pending[..0] == [] && p.pending[0..] == p.pending;
    }
  }

  /** EXIT at the front of the FIFO ends the loop: the worker returns unchanged otherwise, and
      the messages behind it are never handled. */
  lemma RunLoopExit(p: Pipeline, ended: seq<bool>)
    requires p.worker.status == Running && AllWellFormed(p.pending)
    requires p.pending != [] && p.pending[0].kind == Exit && ended != []
    ensures RunLoop(p, ended) == Pipeline(p.worker.(status := Returned), p.pending[1..])
  {
    var q := Iteration(p, ended[0]);
    assert q == Pipeline(p.worker.(status := Returned), p.pending[1..]);
  }

  /** Over any run in which only the worker touches the song list, the head of the queue stays
      the current track and the worker never dies on an empty pop. */
  lemma {:induction false} RunLoopKeepsHead(p: Pipeline, ended: seq<bool>)
    requires AllWellFormed(p.pending) && HeadIsCurrent(p.worker) && p.worker.status != Raised
    ensures HeadIsCurrent(RunLoop(p, ended).worker) && RunLoop(p, ended).worker.status != Raised
    decreases |ended|
  {
    if ended != [] && p.worker.status == Running {
      var p1 := if p.pending == [] then p else Pipeline(Handle(p.worker, p.pending[0]), p.pending[1..]);
      if p.pending != [] {
        HandleKeepsHead(p.worker, p.pending[0]);
      }
      if p1.worker.status == Running && ended[0] {
        EndEventKeepsHead(p1.worker);
      }
      RunLoopKeepsHead(Iteration(p, ended[0]), ended[1..]);
    }
  }

  /** The `queue.Queue` between the backend object and the worker. */
  class MessageQueue {
    var items: seq<Message>

    constructor ()
      ensures items == []
    {
      items := [];
    }

    method Put(m: Message)
      modifies this
      ensures items == old(items) + [m]
    {
      items := items + [m];
    }

    method Get() returns (m: Message)
      requires items != []
      modifies this
      ensures m == old(items)[0] && items == old(items)[1..]
    {
      m := items[0];
      items := items[1..];
    }
  }

  /** The worker thread running `pygame_loop`: its loop variables and the channel it owns. */
  class WorkerThread {
    const queue: MessageQueue
    const songs: SongList
    var state: State
    var volume: real
    var status: Status
    var channel: seq<ChannelCall>

    ghost function Model(): Worker
      reads this, songs
    {
      Worker(state, volume, status, songs.items, channel)
    }

    ghost function Snapshot(): Pipeline
      reads this, songs, queue
    {
      Pipeline(Model(), queue.items)
    }

    /** The loop's set-up: a fresh channel and the Stopped state. */
    constructor (queue: MessageQueue, songs: SongList)
      ensures this.queue == queue && this.songs == songs
      ensures state == Stopped && volume == InitialVolume && status == Running && channel == []
    {
      this.queue := queue;
      this.songs := songs;
      state := Stopped;
      volume := InitialVolume;
      status := Running;
      channel := [];
    }

    /** The `match message.type` of the loop. */
    method Step(m: Message)
      requires status == Running && WellFormed(m)
      modifies this
      ensures Model() == Handle(old(Model()), m)
    {
      match m.kind {
        case VolumeSet =>
          volume := m.payload.value;
          channel := channel + [ChannelSetVolume(volume)];
        case VolumeDelta =>
          volume := volume + m.payload.value;
          channel := channel + [ChannelSetVolume(volume)];
        case Stop =>
          state := Stopped;
          channel := channel + [ChannelStop];
        case PlayPause =>
          if state == Stopped {
            if songs.items != [] {
              channel := channel + [ChannelPlay(songs.items[0])];
              state := Playing;
            }
          } else if state == Paused {
            channel := channel + [ChannelUnpause];
            state := Playing;
          } else if state == Playing {
            channel := channel + [ChannelPause];
            state := Paused;
          }
        case ForcePlay =>
          if songs.items != [] {
            channel := channel + [ChannelPlay(songs.items[0])];
            state := Playing;
          }
        case Exit =>
          status := Returned;
        case Play =>
      }
    }

    /** The end-of-track branch of the loop. */
    method EndEvent()
      requires status == Running
      modifies this, songs
      ensures Model() == OnEndEvent(old(Model()))
    {
      if state == Playing {
        if songs.items == [] {
          status := Raised;
          return;
        }
        var _ := songs.PopHead();
        if songs.items != [] {
          channel := channel + [ChannelPlay(songs.items[0])];
        } else {
          state := Stopped;
        }
      }
    }

    /** One pass of `while True`. */
    method Iterate(ended: bool)
      requires status == Running && AllWellFormed(queue.items)
      modifies this, songs, queue
      ensures Snapshot() == Iteration(old(Snapshot()), ended)
    {
      if queue.items != [] {
        var m := queue.Get();
        Step(m);
        if status != Running {
          return;
        }
      }
      if ended {
        EndEvent();
      }
    }

    /** The loop, one pass per entry of `ended`, until it returns or dies. */
    method Run(ended: seq<bool>)
      requires AllWellFormed(queue.items)
      modifies this, songs, queue
      ensures Snapshot() == RunLoop(old(Snapshot()), ended)
    {
      var i := 0;
      while i < |ended| && status == Running
        invariant 0 <= i <= |ended|
        invariant AllWellFormed(queue.items)
        invariant RunLoop(old(Snapshot()), ended) == RunLoop(Snapshot(), ended[i..])
      {
        assert ended[i..][1..] == ended[i + 1..];
        Iterate(ended[i]);
        i := i + 1;
      }
    }
  }

  /** `LocalBackendImpl`: the producer side. Each command puts exactly one message on the FIFO. */
  class LocalBackendImpl {
    const songs: SongList
    const queue: MessageQueue
    const worker: WorkerThread

    /** A fresh FIFO and a worker sharing it and the song list. */
    constructor (songs: SongList)
      ensures this.songs == songs && fresh(queue) && fresh(worker) && queue.items == []
      ensures worker.queue == queue && worker.songs == songs
      ensures worker.state == Stopped && worker.status == Running
    {
      this.songs := songs;
      var q := new MessageQueue();
      queue := q;
      worker := new WorkerThread(q, songs);
    }

    /** `close`: ask the worker to exit (joining the thread is not modelled). */
    method Close()
      modifies queue
      ensures queue.items == old(queue.items) + [ExitMessage()]
    {
      queue.Put(ExitMessage());
    }

    method Playpause()
      modifies queue
      ensures queue.items == old(queue.items) + [PlayPauseMessage()]
    {
      queue.Put(PlayPauseMessage());
    }

    /** `force_play`: raise `NoSongsToPlay` exactly when the shared list is empty, otherwise
        put FORCE_PLAY; the list itself is never changed. */
    method ForcePlay() returns (r: Outcome)
      modifies queue
      ensures r == NoSongsToPlay <==> songs.items == []
      ensures r == Ok ==> queue.items == old(queue.items) + [ForcePlayMessage()]
      ensures r == NoSongsToPlay ==> queue.items == old(queue.items)
      ensures unchanged(songs)
    {
      if songs.items == [] {
        return NoSongsToPlay;
      }
      queue.Put(ForcePlayMessage());
      return Ok;
    }

    method VolumeSet(value: real)
      modifies queue
      ensures queue.items == old(queue.items) + [VolumeSetMessage(value)]
    {
      queue.Put(VolumeSetMessage(value));
    }

    method VolumeDelta(value: real)
      modifies queue
      ensures queue.items == old(queue.items) + [VolumeDeltaMessage(value)]
    {
      queue.Put(VolumeDeltaMessage(value));
    }

    method Stop()
      modifies queue
      ensures queue.items == old(queue.items) + [StopMessage()]
    {
      queue.Put(StopMessage());
    }
  }
}
