/** One isolated browser generation at a time: the worker, the client that owns launches, and a channel that may lose
    or delay any request and any reply. */
module LaunchModel {
  import opened Wrappers

  type Id = string

  const RETIRED_KEPT := 128

  datatype State = Running | RefusedState | RetiredState | UnknownState | Retained

  /** `chrome` tells whether a child was assigned and is alive; `procs` are the browser processes that really exist;
      `reaped` is the history of positively retired launches. */
  datatype Worker = Worker(launch: Option<Id>, chrome: Option<bool>, replied: bool, retired: set<Id>, order: seq<Id>,
                           procs: set<Id>, reaped: set<Id>)

  const IDLE_WORKER := Worker(None, None, false, {}, [], {}, {})

  /** How a start or a stop goes once the worker has decided to try it. */
  datatype Luck = Luck(wellFormed: bool, ready: bool, spawned: bool, reaps: bool)

  /** The retirement record is bounded: the oldest launch is forgotten first. */
  function Remember(order: seq<Id>, id: Id): seq<Id> {
    var longer := order + [id];
    if |longer| > RETIRED_KEPT then longer[1..] else longer
  }

  function Forgotten(order: seq<Id>, id: Id): set<Id> {
    var longer := order + [id];
    if |longer| > RETIRED_KEPT then {longer[0]} else {}
  }

  /** Retirement is recorded only after every child has been reaped. */
  function Reap(w: Worker, id: Id): Worker {
    Worker(None, None, false, (w.retired + {id}) - Forgotten(w.order, id), Remember(w.order, id), {}, w.reaped + {id})
  }

  function Stop(w: Worker, id: Id, luck: Luck): (Worker, Option<State>) {
    if id in w.retired then (w, Some(RetiredState))
    else if w.launch != Some(id) then (w, Some(UnknownState))
    else if luck.reaps then (Reap(w, id), Some(RetiredState))
    else (w, None)
  }

  function Start(w: Worker, id: Id, luck: Luck): (Worker, Option<State>) {
    if id in w.retired then (w, Some(RefusedState))
    else if w.launch.Some? then
      if w.launch == Some(id) && w.chrome == Some(true) && w.replied then (w, Some(Running)) else (w, Some(RefusedState))
    else if !luck.wellFormed then (w, Some(RefusedState))
    else
      var begun := w.(launch := Some(id), chrome := if luck.spawned then Some(true) else None,
                      procs := if luck.spawned then w.procs + {id} else w.procs);
      if luck.ready && luck.spawned then (begun.(replied := true), Some(Running))
      else
        var (stopped, answer) := Stop(begun, id, luck);
        if answer.Some? then (stopped, Some(RefusedState)) else (begun, Some(Retained))
  }

  function Status(w: Worker, id: Id, luck: Luck): (Worker, Option<State>) {
    if id in w.retired then (w, Some(RetiredState))
    else if w.launch == Some(id) && w.chrome.Some? then
      if w.chrome == Some(true) then (w, Some(Running)) else Stop(w, id, luck)
    else (w, Some(UnknownState))
  }

  /** The browser may die at any moment. */
  function Die(w: Worker): Worker {
    w.(chrome := if w.chrome.Some? then Some(false) else None, procs := {})
  }

  datatype Request = StartRequest(id: Id) | StopRequest(id: Id) | StatusRequest(id: Id)

  datatype Reply = StartReply(id: Id, state: State) | StopReply(id: Id, state: State) | StatusReply(id: Id, state: State)

  /** The owned handle: an unacknowledged launch stays owned until its retirement is positively confirmed. */
  datatype Remote = Remote(id: Id, confirmed: bool, retired: bool)

  /** `flying` holds requests sent but not yet processed, `answers` every reply ever sent; `issued` all launch ids. */
  datatype System = System(worker: Worker, chrome: Option<Remote>, launching: Option<Id>, flying: multiset<Request>,
                           answers: set<Reply>, issued: set<Id>)

  datatype Action =
    | Launch(id: Id, sent: bool)
    | StartAnswered(state: State)
    | StartLost
    | SendStop
    | SendStatus
    | StopAnswered
    | StatusAnswered
    | Forget
    | Deliver(request: Request, luck: Luck)
    | BrowserDies

  predicate MayLaunch(s: System) {
    s.launching.None? && (s.chrome.None? || s.chrome.value.retired)
  }

  /** A request that was not sent cannot have launched anything. */
  function BeginLaunch(s: System, id: Id, sent: bool): System {
    if !MayLaunch(s) || id in s.issued then s
    else if !sent then s.(chrome := None, issued := s.issued + {id})
    else s.(chrome := Some(Remote(id, false, false)), launching := Some(id), issued := s.issued + {id},
            flying := s.flying + multiset{StartRequest(id)})
  }

  /** Only a positive rejection releases the launch; anything unclear keeps it. */
  function EndLaunch(s: System, state: State): System {
    if s.launching.None? || StartReply(s.launching.value, state) !in s.answers then s
    else if state == RefusedState then s.(launching := None, chrome := None)
    else if state == Running && s.chrome.Some? then s.(launching := None, chrome := Some(s.chrome.value.(confirmed := true)))
    else s.(launching := None)
  }

  function MarkRetired(s: System): System {
    if s.chrome.Some? then s.(chrome := Some(s.chrome.value.(retired := true))) else s
  }

  function DeliverRequest(s: System, request: Request, luck: Luck): System {
    if request !in s.flying then s
    else
      var (w, answer) := match request
        case StartRequest(id) => Start(s.worker, id, luck)
        case StopRequest(id) => Stop(s.worker, id, luck)
        case StatusRequest(id) => Status(s.worker, id, luck);
      var reply := match request
        case StartRequest(id) => StartReply(id, if answer.Some? then answer.value else UnknownState)
        case StopRequest(id) => StopReply(id, if answer.Some? then answer.value else UnknownState)
        case StatusRequest(id) => StatusReply(id, if answer.Some? then answer.value else UnknownState);
      s.(worker := w, flying := s.flying - multiset{request},
         answers := if answer.Some? then s.answers + {reply} else s.answers)
  }

  function Step(s: System, a: Action): System {
    match a
    case Launch(id, sent) => BeginLaunch(s, id, sent)
    case StartAnswered(state) => EndLaunch(s, state)
    case StartLost => s.(launching := None)
    case SendStop => if s.chrome.Some? then s.(flying := s.flying + multiset{StopRequest(s.chrome.value.id)}) else s
    case SendStatus => if s.chrome.Some? then s.(flying := s.flying + multiset{StatusRequest(s.chrome.value.id)}) else s
    case StopAnswered =>
      if s.chrome.Some? && StopReply(s.chrome.value.id, RetiredState) in s.answers then MarkRetired(s) else s
    case StatusAnswered =>
      if s.chrome.Some? && StatusReply(s.chrome.value.id, RetiredState) in s.answers then MarkRetired(s) else s
    case Forget => if s.chrome.Some? && s.chrome.value.retired then s.(chrome := None) else s
    case Deliver(request, luck) => DeliverRequest(s, request, luck)
    case BrowserDies => s.(worker := Die(s.worker))
  }

  function Steps(s: System, actions: seq<Action>): System
    decreases |actions|
  {
    if actions == [] then s else Steps(Step(s, actions[0]), actions[1..])
  }

  const NEW_SYSTEM := System(IDLE_WORKER, None, None, multiset{}, {}, {})
}
