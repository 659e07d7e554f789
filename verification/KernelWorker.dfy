/**
The worker's event loop as one object: each iteration takes a trace frame if one
is complete, every buffered QMP line, every buffered guest line, and then decides
whether to stop the machine. An iteration is a run of `KernelProtocol`.
*/
module KernelWorker {
  import opened Words
  import opened KernelProtocol

  /** One reaction after another. */
  function Chain(a: Reaction, b: Reaction): Reaction {
    if a.Fails? || b.Fails? then Fails
    else Reacts(b.next, a.sent + b.sent, a.drains + b.drains, a.log + b.log)
  }

  function QmpAll(w: Worker, ms: seq<Message>): Reaction {
    if ms == [] then Reacts(w, [], 0, [])
    else
      match QmpAll(w, ms[..|ms| - 1])
      case Fails => Fails
      case Reacts(v, sent, drains, log) => Chain(Reacts(v, sent, drains, log), OnQmp(v, ms[|ms| - 1]))
  }

  function GuestAll(w: Worker, es: seq<GuestEvent>): Reaction {
    if es == [] then Reacts(w, [], 0, [])
    else
      match GuestAll(w, es[..|es| - 1])
      case Fails => Fails
      case Reacts(v, sent, drains, log) => Chain(Reacts(v, sent, drains, log), OnGuest(v, es[|es| - 1]))
  }

  function TraceMaybe(w: Worker, frame: Option<TraceFrame>): Reaction {
    match frame case None => Reacts(w, [], 0, []) case Some(f) => OnTrace(w, f)
  }

  /** One iteration of the loop. */
  function LoopOnce(w: Worker, frame: Option<TraceFrame>, ms: seq<Message>, es: seq<GuestEvent>): Reaction {
    var a := TraceMaybe(w, frame);
    if a.Fails? then Fails
    else
      var b := Chain(a, QmpAll(a.next, ms));
      if b.Fails? then Fails
      else
        var c := Chain(b, GuestAll(b.next, es));
        if c.Fails? then Fails else Chain(c, OnIdle(c.next))
  }

  class EventLoop {
    const interactive: bool
    var hello: bool
    var greeting: bool
    var requested: bool
    var draining: bool
    var seal: bool
    var guestStarted: bool
    var guestComplete: bool
    var pending: nat
    var nextId: nat
    var command: Command
    // What the iteration has put on the sockets and pipes.
    var sent: seq<Sent>
    var drains: nat
    ghost var log: seq<Entry>

    ghost function View(): Worker
      reads this
    {
      Worker(interactive, hello, greeting, requested, draining, seal, guestStarted, guestComplete, pending, nextId,
             command)
    }

    /** The state and outputs a reaction leaves. */
    ghost predicate Did(r: Reaction)
      reads this
    {
      r == Reacts(View(), sent, drains, log)
    }

    constructor (interactive: bool)
      ensures Did(Reacts(NEW.(interactive := interactive), [], 0, []))
    {
      this.interactive := interactive;
      hello, greeting, requested, draining, seal := false, false, false, false, false;
      guestStarted, guestComplete, pending, nextId, command := false, false, 0, 1, NoCommand;
      sent, drains, log := [], 0, [];
    }

    method Send(name: Command, ghost entry: Entry)
      modifies this`pending, this`nextId, this`command, this`sent, this`log
      ensures View() == Ask(old(View()), name) && sent == old(sent) + [Sent(old(nextId), name)]
      ensures log == old(log) + [entry]
    {
      pending := nextId;
      nextId := nextId + 1;
      command := name;
      sent := sent + [Sent(pending, name)];
      log := log + [entry];
    }

    method TakeFrame(f: TraceFrame) returns (ok: bool)
      modifies this
      ensures ok <==> OnTrace(old(View()), f).Reacts?
      ensures ok ==> Did(Chain(Reacts(old(View()), old(sent), old(drains), old(log)), OnTrace(old(View()), f)))
    {
      if seal { return false; }
      // The stream validator refuses a second Hello.
      if hello && f.TraceHello? { return false; }
      if !hello {
        if !f.TraceHello? || !f.system || f.kernel != interactive { return false; }
        hello := true;
      }
      if f.TraceComplete? {
        seal := true;
        return true;
      }
      if f.TraceRequest? && (!interactive || !draining) { return false; }
      if f.TraceError? { return false; }
      if f.TraceRequest? {
        // The client's action goes to the guest here, between the seal and the resume.
        draining := false;
        requested := false;
        log := log + [Sealed, Act];
        Send(Resume, Continue);
        assert log == old(log) + [Sealed, Act, Continue];
      }
      return true;
    }

    method TakeMessage(m: Message) returns (ok: bool)
      modifies this
      ensures ok <==> OnQmp(old(View()), m).Reacts?
      ensures ok ==> Did(Chain(Reacts(old(View()), old(sent), old(drains), old(log)), OnQmp(old(View()), m)))
    {
      if m.Greeting? {
        if greeting { return false; }
        greeting := true;
        Send(Capabilities, Capable);
      } else if m.Answer? {
        if m.id != pending || pending == 0 || !m.ok { return false; }
        TakeAnswer(m);
      }
      return true;
    }

    /** The answer the loop waits for. */
    method TakeAnswer(m: Message)
      requires m.Answer? && m.id == pending && pending != 0 && m.ok
      modifies this
      ensures Did(Chain(Reacts(old(View()), old(sent), old(drains), old(log)), OnQmp(old(View()), m)))
    {
      var completed := command;
      command := NoCommand;
      pending := 0;
      if completed == Capabilities {
        Send(Resume, Continue);
      } else if completed == Stop {
        log := log + [Paused, Drain];
        drains := drains + 1;
        draining := true;
      }
    }

    method TakeEvent(e: GuestEvent) returns (ok: bool)
      modifies this
      ensures ok <==> OnGuest(old(View()), e).Reacts?
      ensures ok ==> Did(Chain(Reacts(old(View()), old(sent), old(drains), old(log)), OnGuest(old(View()), e)))
    {
      if !hello { return false; }
      match e {
      case GuestStart(mode) =>
        if guestStarted || mode != interactive { return false; }
        guestStarted := true;
      case GuestReady =>
        if !interactive || !guestStarted || requested || guestComplete { return false; }
        requested := true;
        log := log + [Ready];
      case GuestComplete(good) =>
        if !guestStarted || guestComplete || requested || draining || !good { return false; }
        guestComplete := true;
        log := log + [Done];
      case GuestResult =>
        if !guestStarted || guestComplete { return false; }
      case GuestUnknown => return false;
      }
      return true;
    }

    /** Every buffered QMP line. */
    method TakeMessages(ms: seq<Message>) returns (ok: bool)
      modifies this
      ensures ok <==> QmpAll(old(View()), ms).Reacts?
      ensures ok ==> Did(Chain(Reacts(old(View()), old(sent), old(drains), old(log)), QmpAll(old(View()), ms)))
    {
      hide OnQmp, QmpAll;
      ghost var w := View();
      ghost var a := Reacts(w, sent, drains, log);
      var i := 0;
      NoMessages(w);
      assert ms[..0] == [] && Chain(a, Reacts(w, [], 0, [])) == a;
      while i < |ms|
        invariant i <= |ms| && QmpAll(w, ms[..i]).Reacts? && Did(Chain(a, QmpAll(w, ms[..i])))
      {
        QmpStep(w, ms, i);
        ghost var b := QmpAll(w, ms[..i]);
        ok := TakeMessage(ms[i]);
        if !ok {
          QmpStuck(w, ms, i + 1);
          return;
        }
        ChainAssociates(a, b, OnQmp(b.next, ms[i]));
        i := i + 1;
      }
      assert ms[..i] == ms;
      ok := true;
    }

    /** Every buffered guest line. */
    method TakeEvents(es: seq<GuestEvent>) returns (ok: bool)
      modifies this
      ensures ok <==> GuestAll(old(View()), es).Reacts?
      ensures ok ==> Did(Chain(Reacts(old(View()), old(sent), old(drains), old(log)), GuestAll(old(View()), es)))
    {
      hide OnGuest, GuestAll;
      ghost var w := View();
      ghost var a := Reacts(w, sent, drains, log);
      var i := 0;
      NoEvents(w);
      assert es[..0] == [] && Chain(a, Reacts(w, [], 0, [])) == a;
      while i < |es|
        invariant i <= |es| && GuestAll(w, es[..i]).Reacts? && Did(Chain(a, GuestAll(w, es[..i])))
      {
        GuestStep(w, es, i);
        ghost var b := GuestAll(w, es[..i]);
        ok := TakeEvent(es[i]);
        if !ok {
          GuestStuck(w, es, i + 1);
          return;
        }
        ChainAssociates(a, b, OnGuest(b.next, es[i]));
        i := i + 1;
      }
      assert es[..i] == es;
      ok := true;
    }

    /** One iteration of the loop: outputs and flags are those of `LoopOnce`. */
    method Iterate(frame: Option<TraceFrame>, ms: seq<Message>, es: seq<GuestEvent>) returns (ok: bool)
      modifies this
      ensures ok <==> LoopOnce(old(View()), frame, ms, es).Reacts?
      ensures ok ==>
        Did(Chain(Reacts(old(View()), old(sent), old(drains), old(log)), LoopOnce(old(View()), frame, ms, es)))
    {
      hide OnTrace, OnQmp, OnGuest, QmpAll, GuestAll, OnIdle;
      ghost var before := Reacts(View(), sent, drains, log);
      ghost var a := TraceMaybe(View(), frame);
      if frame.Some? {
        ok := TakeFrame(frame.value);
        if !ok { return; }
      }
      Unchanged(before);
      assert Did(Chain(before, a));
      ghost var b := QmpAll(View(), ms);
      ok := TakeMessages(ms);
      if !ok { return; }
      ChainAssociates(before, a, b);
      ghost var c := GuestAll(View(), es);
      ok := TakeEvents(es);
      if !ok { return; }
      ChainAssociates(before, Chain(a, b), c);
      ChainAssociates(before, Chain(Chain(a, b), c), OnIdle(View()));
      MaybeStop();
    }

    /** The end of an iteration. */
    method MaybeStop()
      modifies this`pending, this`nextId, this`command, this`sent, this`log
      ensures Did(Chain(Reacts(old(View()), old(sent), old(drains), old(log)), OnIdle(old(View()))))
    {
      if interactive && requested && pending == 0 && !draining {
        Send(Stop, Pause);
      }
    }
  }

  lemma Unchanged(a: Reaction)
    requires a.Reacts?
    ensures Chain(a, Reacts(a.next, [], 0, [])) == a
  {
  }

  lemma NoMessages(w: Worker)
    ensures QmpAll(w, []) == Reacts(w, [], 0, [])
  {
  }

  lemma NoEvents(w: Worker)
    ensures GuestAll(w, []) == Reacts(w, [], 0, [])
  {
  }

  lemma ChainAssociates(a: Reaction, b: Reaction, c: Reaction)
    ensures Chain(Chain(a, b), c) == Chain(a, Chain(b, c))
  {
    if a.Reacts? && b.Reacts? && c.Reacts? {
      assert a.sent + b.sent + c.sent == a.sent + (b.sent + c.sent);
      assert a.log + b.log + c.log == a.log + (b.log + c.log);
    }
  }

  lemma QmpStep(w: Worker, ms: seq<Message>, i: nat)
    requires i < |ms| && QmpAll(w, ms[..i]).Reacts?
    ensures QmpAll(w, ms[..i + 1]) == Chain(QmpAll(w, ms[..i]), OnQmp(QmpAll(w, ms[..i]).next, ms[i]))
  {
    hide OnQmp;
    assert ms[..i + 1][..i] == ms[..i];
  }

  lemma {:induction false} QmpStuck(w: Worker, ms: seq<Message>, i: nat)
    requires i <= |ms| && QmpAll(w, ms[..i]).Fails?
    ensures QmpAll(w, ms).Fails?
    decreases |ms| - i
  {
    hide OnQmp;
    if i == |ms| {
      assert ms[..i] == ms;
    } else {
      assert ms[..i + 1][..i] == ms[..i];
      QmpStuck(w, ms, i + 1);
    }
  }

  lemma GuestStep(w: Worker, es: seq<GuestEvent>, i: nat)
    requires i < |es| && GuestAll(w, es[..i]).Reacts?
    ensures GuestAll(w, es[..i + 1]) == Chain(GuestAll(w, es[..i]), OnGuest(GuestAll(w, es[..i]).next, es[i]))
  {
    hide OnGuest;
    assert es[..i + 1][..i] == es[..i];
  }

  lemma {:induction false} GuestStuck(w: Worker, es: seq<GuestEvent>, i: nat)
    requires i <= |es| && GuestAll(w, es[..i]).Fails?
    ensures GuestAll(w, es).Fails?
    decreases |es| - i
  {
    hide OnGuest;
    if i == |es| {
      assert es[..i] == es;
    } else {
      assert es[..i + 1][..i] == es[..i];
      GuestStuck(w, es, i + 1);
    }
  }

  // ---------------------------------------------------------------- an iteration is a run

  /** The events of one iteration that messages `n` messages and `k` guest lines. */
  function Events(frame: bool, n: nat, k: nat): seq<Event> {
    (if frame then [ReadTrace] else []) + seq(n, _ => ReadQmp) + seq(k, _ => ReadGuest) + [Idle]
  }

  lemma {:induction false} RunAppend(s: System, a: seq<Event>, b: seq<Event>)
    requires Run(s, a).Some?
    ensures Run(s, a + b) == Run(Run(s, a).value, b)
  {
    hide Step;
    if b == [] {
      assert a + b == a;
    } else {
      assert (a + b)[..|a + b| - 1] == a + b[..|b| - 1];
      RunAppend(s, a, b[..|b| - 1]);
    }
  }

  /** Reading `n` QMP messages one by one is the loop over them. */
  lemma {:induction false} QmpRun(s: System, n: nat)
    requires n <= |s.replies| && QmpAll(s.worker, s.replies[..n]).Reacts?
    ensures Run(s, seq(n, _ => ReadQmp)) ==
      React(s.(replies := s.replies[n..]), QmpAll(s.worker, s.replies[..n]))
  {
    hide OnQmp, Step;
    var events := seq(n, _ => ReadQmp);
    if n == 0 {
      assert s.replies[0..] == s.replies && s.queue + [] == s.queue && s.log + [] == s.log;
    } else {
      var less := s.replies[..n - 1];
      assert s.replies[..n][..n - 1] == less;
      QmpRun(s, n - 1);
      assert events[..n - 1] == seq(n - 1, _ => ReadQmp);
      var t := Run(s, events[..n - 1]).value;
      assert t.replies == s.replies[n - 1..] && t.replies[0] == s.replies[n - 1] && t.replies[1..] == s.replies[n..];
      ReplyRead(t);
      ReactTwice(s.(replies := s.replies[n..]), QmpAll(s.worker, less), OnQmp(t.worker, t.replies[0]));
    }
  }

  lemma {:induction false} GuestRun(s: System, n: nat)
    requires n <= |s.serial| && GuestAll(s.worker, s.serial[..n]).Reacts?
    ensures Run(s, seq(n, _ => ReadGuest)) ==
      React(s.(serial := s.serial[n..]), GuestAll(s.worker, s.serial[..n]))
  {
    hide OnGuest, Step;
    var events := seq(n, _ => ReadGuest);
    if n == 0 {
      assert s.serial[0..] == s.serial && s.queue + [] == s.queue && s.log + [] == s.log;
    } else {
      var less := s.serial[..n - 1];
      assert s.serial[..n][..n - 1] == less;
      GuestRun(s, n - 1);
      assert events[..n - 1] == seq(n - 1, _ => ReadGuest);
      var t := Run(s, events[..n - 1]).value;
      assert t.serial == s.serial[n - 1..] && t.serial[0] == s.serial[n - 1] && t.serial[1..] == s.serial[n..];
      LineRead(t);
      ReactTwice(s.(serial := s.serial[n..]), GuestAll(s.worker, less), OnGuest(t.worker, t.serial[0]));
    }
  }

  lemma ReplyRead(s: System)
    requires s.replies != []
    ensures Step(s, ReadQmp) == React(s.(replies := s.replies[1..]), OnQmp(s.worker, s.replies[0]))
  {
    hide OnQmp;
  }

  lemma LineRead(s: System)
    requires s.serial != []
    ensures Step(s, ReadGuest) == React(s.(serial := s.serial[1..]), OnGuest(s.worker, s.serial[0]))
  {
    hide OnGuest;
  }

  lemma ReactTwice(s: System, a: Reaction, b: Reaction)
    requires a.Reacts?
    ensures React(React(s, a).value, b) == if b.Fails? then None else React(s, Chain(a, b))
  {
    if b.Reacts? {
      assert s.queue + a.sent + b.sent == s.queue + (a.sent + b.sent);
      assert s.log + a.log + b.log == s.log + (a.log + b.log);
    }
  }

  /** The system after an iteration is the one a run of the protocol's steps reaches. */
  lemma IterationIsRun(s: System, frame: bool, n: nat, k: nat)
    requires (frame ==> s.trace != []) && n <= |s.replies| && k <= |s.serial|
    requires LoopOnce(s.worker, if frame then Some(s.trace[0]) else None, s.replies[..n], s.serial[..k]).Reacts?
    ensures Run(s, Events(frame, n, k)) ==
      React(s.(trace := if frame then s.trace[1..] else s.trace, replies := s.replies[n..], serial := s.serial[k..]),
            LoopOnce(s.worker, if frame then Some(s.trace[0]) else None, s.replies[..n], s.serial[..k]))
  {
    hide OnTrace, OnQmp, OnGuest, OnIdle, QmpAll, GuestAll, Run, React, TraceMaybe;
    var first := if frame then [ReadTrace] else [];
    var messages, lines := seq(n, _ => ReadQmp), seq(k, _ => ReadGuest);
    var a := TraceMaybe(s.worker, if frame then Some(s.trace[0]) else None);
    var rest := s.(trace := if frame then s.trace[1..] else s.trace);
    FirstRead(s, frame);
    QmpPart(s, first, rest, a, n);
    var b := Chain(a, QmpAll(a.next, s.replies[..n]));
    GuestPart(s, first + messages, rest.(replies := s.replies[n..]), b, k);
    var c := Chain(b, GuestAll(b.next, s.serial[..k]));
    IdlePart(s, first + messages + lines, rest.(replies := s.replies[n..], serial := s.serial[k..]), c);
  }

  lemma QmpPart(s: System, events: seq<Event>, rest: System, a: Reaction, n: nat)
    requires Run(s, events) == React(rest, a) && a.Reacts? && n <= |rest.replies|
    requires QmpAll(a.next, rest.replies[..n]).Reacts?
    ensures Run(s, events + seq(n, _ => ReadQmp)) ==
      React(rest.(replies := rest.replies[n..]), Chain(a, QmpAll(a.next, rest.replies[..n])))
  {
    hide Run, QmpAll;
    var t := React(rest, a).value;
    QmpRun(t, n);
    RunAppend(s, events, seq(n, _ => ReadQmp));
    ReactTwice(rest.(replies := rest.replies[n..]), a, QmpAll(a.next, rest.replies[..n]));
  }

  lemma GuestPart(s: System, events: seq<Event>, rest: System, a: Reaction, n: nat)
    requires Run(s, events) == React(rest, a) && a.Reacts? && n <= |rest.serial|
    requires GuestAll(a.next, rest.serial[..n]).Reacts?
    ensures Run(s, events + seq(n, _ => ReadGuest)) ==
      React(rest.(serial := rest.serial[n..]), Chain(a, GuestAll(a.next, rest.serial[..n])))
  {
    hide Run, GuestAll;
    var t := React(rest, a).value;
    GuestRun(t, n);
    RunAppend(s, events, seq(n, _ => ReadGuest));
    ReactTwice(rest.(serial := rest.serial[n..]), a, GuestAll(a.next, rest.serial[..n]));
  }

  lemma IdlePart(s: System, events: seq<Event>, rest: System, a: Reaction)
    requires Run(s, events) == React(rest, a) && a.Reacts? && OnIdle(a.next).Reacts?
    ensures Run(s, events + [Idle]) == React(rest, Chain(a, OnIdle(a.next)))
  {
    hide Run, OnIdle;
    var t := React(rest, a).value;
    LastIdle(t);
    RunAppend(s, events, [Idle]);
    ReactTwice(rest, a, OnIdle(a.next));
  }

  lemma FirstRead(s: System, frame: bool)
    requires frame ==> s.trace != []
    ensures Run(s, if frame then [ReadTrace] else []) ==
      React(s.(trace := if frame then s.trace[1..] else s.trace),
            TraceMaybe(s.worker, if frame then Some(s.trace[0]) else None))
  {
    hide OnTrace;
    assert [ReadTrace][..0] == [];
    assert s.queue + [] == s.queue && s.log + [] == s.log;
  }

  lemma LastIdle(s: System)
    ensures Run(s, [Idle]) == React(s, OnIdle(s.worker))
  {
    hide OnIdle;
    assert [Idle][..0] == [];
  }
}
