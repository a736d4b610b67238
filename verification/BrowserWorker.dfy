/** The worker and the owned launch handle as objects. Each worker request runs under one lock, so a request is one
    method; spawning, reaping and the client's requests succeed or fail as their parameters say. */
module BrowserWorkers {
  import opened Wrappers
  import opened LaunchModel

  class Worker {
    var launchId: Option<Id>
    var chrome: Option<bool>
    var replied: bool
    var retired: set<Id>
    var retiredOrder: seq<Id>
    ghost var procs: set<Id>
    ghost var reaped: set<Id>

    ghost function View(): LaunchModel.Worker
      reads this
    {
      LaunchModel.Worker(launchId, chrome, replied, retired, retiredOrder, procs, reaped)
    }

    constructor ()
      ensures View() == IDLE_WORKER
    {
      launchId, chrome, replied, retired, retiredOrder := None, None, false, {}, [];
      procs, reaped := {}, {};
    }

    /** None is a stop that raised: cleanup is affirmative only after every owned child is reaped. */
    method Stop(id: Id, luck: Luck) returns (answer: Option<State>)
      modifies this
      ensures (View(), answer) == LaunchModel.Stop(old(View()), id, luck)
    {
      if id in retired { return Some(RetiredState); }
      if launchId != Some(id) { return Some(UnknownState); }
      if !luck.reaps { return None; }
      procs, reaped := {}, reaped + {id};
      retired := retired + {id};
      retiredOrder := retiredOrder + [id];
      if |retiredOrder| > RETIRED_KEPT {
        retired := retired - {retiredOrder[0]};
        retiredOrder := retiredOrder[1..];
      }
      assert retired == (old(retired) + {id}) - Forgotten(old(retiredOrder), id);
      launchId, chrome, replied := None, None, false;
      return Some(RetiredState);
    }

    method Start(id: Id, luck: Luck) returns (answer: Option<State>)
      modifies this
      ensures (View(), answer) == LaunchModel.Start(old(View()), id, luck)
    {
      if id in retired { return Some(RefusedState); }
      if launchId.Some? {
        if launchId.value == id && chrome == Some(true) && replied { return Some(Running); }
        return Some(RefusedState);
      }
      if !luck.wellFormed { return Some(RefusedState); }
      // Reserved before the first spawn, and the child is assigned before readiness is awaited.
      launchId := Some(id);
      chrome := None;
      if luck.spawned {
        chrome := Some(true);
        procs := procs + {id};
      }
      if luck.ready && luck.spawned {
        replied := true;
        return Some(Running);
      }
      var stopped := Stop(id, luck);
      return if stopped.Some? then Some(RefusedState) else Some(Retained);
    }

    method Status(id: Id, luck: Luck) returns (answer: Option<State>)
      modifies this
      ensures (View(), answer) == LaunchModel.Status(old(View()), id, luck)
    {
      if id in retired { return Some(RetiredState); }
      if launchId == Some(id) && chrome.Some? {
        if chrome.value { return Some(Running); }
        answer := Stop(id, luck);
        return;
      }
      return Some(UnknownState);
    }
  }

  /** The client's owned handle: `chrome`, and the launch whose start is being awaited. */
  class LaunchClient {
    var chrome: Option<Remote>
    var launching: Option<Id>

    ghost predicate Shows(s: System)
      reads this
    {
      chrome == s.chrome && launching == s.launching
    }

    constructor ()
      ensures Shows(NEW_SYSTEM)
    {
      chrome, launching := None, None;
    }

    /** `sent` is false if the request could not leave the client at all. */
    method Launch(id: Id, sent: bool, ghost s: System) returns (begun: bool)
      requires Shows(s) && id !in s.issued
      modifies this
      ensures Shows(BeginLaunch(s, id, sent)) && (begun <==> MayLaunch(s) && sent)
    {
      if launching.Some? || (chrome.Some? && !chrome.value.retired) { return false; }
      if !sent {
        chrome := None;
        return false;
      }
      chrome, launching := Some(Remote(id, false, false)), Some(id);
      return true;
    }

    method StartAnswered(state: State, ghost s: System)
      requires Shows(s) && s.launching.Some? && StartReply(s.launching.value, state) in s.answers
      modifies this
      ensures Shows(EndLaunch(s, state))
    {
      launching := None;
      if state == RefusedState {
        chrome := None;
      } else if state == Running && chrome.Some? {
        chrome := Some(chrome.value.(confirmed := true));
      }
    }

    /** `terminate` and the monitor thread: only a positive answer retires the handle. */
    method Answered(reply: Reply, ghost s: System)
      requires Shows(s) && reply in s.answers && !reply.StartReply?
      requires s.chrome.Some? ==> reply.id == s.chrome.value.id
      modifies this
      ensures Shows(if reply.state == RetiredState then MarkRetired(s) else s)
    {
      if chrome.Some? && reply.state == RetiredState {
        chrome := Some(chrome.value.(retired := true));
      }
    }

    method Retire(ghost s: System) returns (forgotten: bool)
      requires Shows(s)
      modifies this
      ensures Shows(Step(s, Forget)) && (forgotten ==> chrome.None?)
    {
      forgotten := chrome.None? || chrome.value.retired;
      if forgotten { chrome := None; }
    }
  }
}
