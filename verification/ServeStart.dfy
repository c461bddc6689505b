/** EnsureServer: starting a remote Serve in two phases, publishing progress
    before the old server is retired and restoring it when the start fails.

    serveMu keeps other EnsureServer and StopServer calls on the generation out.
    Two things still happen in between: the generation stops being current, at any
    of the manager sections the call passes through, and RemoveForward, which
    takes no serveMu, removes the serve forward. */
module ServeStart {

  import opened Text
  import opened Wrappers

  datatype ServerState = NoServer | Ready | Failed | Halted | Progress(step: string)

  datatype View = View(workspace: string, state: ServerState, localURL: string, error: string)

  /** The forward named "serve": its target, bound address and health. */
  datatype Forward = Forward(target: string, bound: string, up: bool)

  datatype Server = Server(view: View, token: string, forward: Option<Forward>)

  datatype Bootstrap = Started(addr: string, token: string, reused: bool) | BootError(error: string)

  datatype Replaced = Bound(addr: string) | BindError(error: string)

  /** What the call meets outside its own control: whether the config loads,
      the bootstrap's progress steps and result, the tunnel's, and how many
      manager sections still find the generation current, and whether another
      caller removes the serve forward: before the call looks at it, or after it
      was bound or found usable. */
  datatype Env = Env(
    configError: Option<string>,
    steps: seq<string>,
    boot: Bootstrap,
    replaced: Replaced,
    currentFor: nat,
    removedBefore: bool,
    removedAfter: bool)

  datatype Result = Success(view: View, token: string) | Error(error: string)

  const REPLACED := "connection was replaced"
  const NO_WORKSPACE := "no managed server workspace"

  function Url(bound: string): string {
    "http://" + bound + "/"
  }

  /** hasUsableServeForward, for the one forward of that name. */
  predicate Usable(f: Option<Forward>, target: string, localURL: string) {
    f.Some? && f.value.up && f.value.target == target && f.value.bound != "" && localURL == Url(f.value.bound)
  }

  /** The call starts a Serve of its own and cannot bind its tunnel. */
  predicate FailsToBind(env: Env) {
    env.configError.None? && env.boot.Started? && !env.boot.reused && env.replaced.BindError?
  }

  /** The bootstrap found the previous server's own Serve, and the tunnel to it
      still stands. */
  predicate Reuses(previous: Server, workspace: string, env: Env) {
    && env.boot.Started? && env.boot.reused && previous.view.state.Ready? && previous.view.workspace == workspace
    && Usable(Left(previous.forward, env.removedBefore), env.boot.addr, previous.view.localURL)
  }

  /** Why a start fails on a generation that stays current, and None if it does
      not. */
  function StartError(previous: Server, workspace: string, env: Env): Option<string> {
    if env.configError.Some? then env.configError
    else if env.boot.BootError? then Some(env.boot.error)
    else if env.replaced.BindError? && !Reuses(previous, workspace, env) then Some(env.replaced.error)
    else None
  }

  /** The views of the steps before the bootstrap's result. */
  function ProgressViews(workspace: string, steps: seq<string>): (r: seq<View>)
    ensures |r| == |steps|
  {
    seq(|steps|, i requires 0 <= i < |steps| => View(workspace, Progress(steps[i]), "", ""))
  }

  /** The forward, unless another caller removed it. */
  function Left(f: Option<Forward>, removed: bool): Option<Forward> {
    if removed then None else f
  }

  class ManagedHost {
    var server: View
    var token: string
    var forward: Option<Forward>

    /** Whether the host table still holds this generation, and the views sent
        to the event sink. */
    var current: bool
    var published: seq<View>

    /** Manager sections the call may still pass as current. */
    var left: nat

    /** Workspaces whose remote Serve this host was told to stop. */
    var remoteStops: seq<string>

    function State(): Server
      reads this
    {
      Server(server, token, forward)
    }

    /** A ready server's published URL is its forward's bound address. */
    predicate Consistent()
      reads this
    {
      server.state.Ready? ==> forward.Some? && server.localURL == Url(forward.value.bound)
    }

    constructor (s: Server, isCurrent: bool)
      ensures State() == s && current == isCurrent && published == [] && remoteStops == []
    {
      server, token, forward, current, published, left, remoteStops := s.view, s.token, s.forward, isCurrent, [], 0, [];
    }

    /** The generation may be retired just before any manager section; once
        retired it never becomes current again. */
    method EnterSection()
      modifies this`current, this`left
      ensures current ==> old(current)
      ensures current <==> old(current && left > 0)
      ensures current ==> left == old(left) - 1
    {
      if left == 0 {
        current := false;
      } else {
        left := left - 1;
      }
    }

    method PublishServerIfCurrent(view: View, tok: string) returns (ok: bool)
      modifies this`server, this`token, this`published, this`current, this`left
      ensures forward == old(forward) && ok == current && (current ==> old(current))
      ensures ok <==> old(current && left > 0)
      ensures ok ==> server == view && token == tok && published == old(published) + [view] && left == old(left) - 1
      ensures !ok ==> State() == old(State()) && published == old(published)
    {
      EnterSection();
      if !current {
        return false;
      }
      server := view;
      token := tok;
      published := published + [view];
      return true;
    }

    /** A previous ready server stays the host's server; without one the error
        is published. */
    method PublishFailedServeStart(previous: View, previousToken: string, failed: View)
      modifies this`server, this`token, this`published, this`current, this`left
      ensures forward == old(forward) && (current ==> old(current))
      ensures current && previous.state.Ready? ==> server == previous && token == previousToken
      ensures current && !previous.state.Ready? ==> server == failed && token == ""
      ensures !current ==> State() == old(State())
      ensures current <==> old(current && left > 0)
      ensures current ==> published == old(published) + [server]
    {
      if previous.state.Ready? {
        var _ := PublishServerIfCurrent(previous, previousToken);
      } else {
        var _ := PublishServerIfCurrent(failed, "");
      }
    }

    method PublishProgress(workspace: string, steps: seq<string>)
      modifies this`server, this`token, this`published, this`current, this`left
      ensures forward == old(forward) && (current <==> old(current && left >= |steps|))
      ensures current ==> left == old(left) - |steps|
      ensures current ==> published == old(published) + ProgressViews(workspace, steps)
    {
      var views := ProgressViews(workspace, steps);
      for i := 0 to |steps|
        invariant forward == old(forward) && (current <==> old(current && left >= i))
        invariant current ==> left == old(left) - i && published == old(published) + views[..i]
      {
        assert views[..i + 1] == views[..i] + [views[i]];
        var _ := PublishServerIfCurrent(View(workspace, Progress(steps[i]), "", ""), "");
      }
      assert views[..|steps|] == views;
    }

    /** Two-phase start. On a generation that stays current, which it does while
        its sections still find it so, the start succeeds exactly when StartError
        has nothing to report, and then with the previous server's view when that
        is reused and else with one at the newly bound address; "starting", the
        bootstrap's steps and the final view are published, in that order. A
        failure on a generation that is still current leaves a
        previously ready server's view and token as they were, and its forward
        too unless another caller removed it. A failure without one publishes the
        error, or changes nothing if the config never loaded. A success leaves
        the forward whose bound address is the published URL, up and for the
        requested workspace, exactly when nobody removed it after that. A Serve
        this call started and could not bind is stopped, once; a reused one,
        which may be the previous server's, never is. */
    method EnsureServer(workspace: string, env: Env) returns (r: Result)
      modifies this
      ensures old(current) && env.currentFor >= |env.steps| + 4 ==> current
      ensures current ==> old(current)
      ensures current ==> (r.Error? <==> env.configError.Some? || env.boot.BootError?
                                         || (env.replaced.BindError? && !Reuses(old(State()), workspace, env)))
      ensures current && r.Error? ==> StartError(old(State()), workspace, env) == Some(r.error)
      ensures current && r.Success? && Reuses(old(State()), workspace, env) ==>
                r == Success(old(server), env.boot.token) && forward == Left(old(forward), env.removedAfter)
      ensures current && env.configError.None? && env.boot.Started? && env.boot.reused && !env.removedBefore
              && old(server.state.Ready? && server.workspace == workspace && forward.Some? && forward.value.up)
              && old(forward.value.target == env.boot.addr && forward.value.bound != "")
              && old(server.localURL == "http://" + forward.value.bound + "/") ==>
                r == Success(old(server), env.boot.token)
      ensures current && r.Success? && !Reuses(old(State()), workspace, env) ==>
                && env.replaced.Bound? && r.token == env.boot.token
                && r.view == View(workspace, Ready, "http://" + env.replaced.addr + "/", "")
                && forward == Left(Some(Forward(env.boot.addr, env.replaced.addr, true)), env.removedAfter)
      ensures current && env.configError.None? ==>
                published == old(published) + [View(workspace, Progress("starting"), "", "")]
                             + ProgressViews(workspace, env.steps) + [server]
      ensures current && env.configError.Some? ==> published == old(published)
      ensures !current ==> r.Error?
      ensures !old(current) || env.currentFor == 0 ==> r == Error(REPLACED)
      ensures r.Error? && current && old(server.state.Ready?) ==>
                State() == Server(old(server), old(token), Left(old(forward), env.removedBefore))
      ensures r.Error? && current && !old(server.state.Ready?) ==>
                forward == Left(old(forward), env.removedBefore) &&
                if env.configError.Some? then server == old(server) && token == old(token)
                else server == View(workspace, Failed, "", r.error) && token == ""
      ensures r.Success? ==>
                && current && server == r.view && token == r.token
                && r.view.state.Ready? && r.view.workspace == workspace
                && env.boot.Started? && r.token == env.boot.token
                && (forward.Some? <==> !env.removedAfter)
                && (forward.Some? ==>
                      && forward.value.up && forward.value.target == env.boot.addr
                      && r.view.localURL == Url(forward.value.bound))
      ensures r.Success? && env.replaced.BindError? ==>
                && r.view == old(server) && !env.removedBefore && forward == Left(old(forward), env.removedAfter)
                && old(forward.Some? && forward.value.bound != "" && forward.value.up)
                && old(forward).value.target == env.boot.addr
      ensures !old(current) ==> r.Error? && State() == old(State())
      ensures remoteStops == old(remoteStops) || remoteStops == old(remoteStops) + [workspace]
      ensures remoteStops != old(remoteStops) ==> FailsToBind(env) && r.Error?
      ensures current && FailsToBind(env) ==> remoteStops == old(remoteStops) + [workspace]
      ensures old(Consistent()) && current && !env.removedBefore && !env.removedAfter ==> Consistent()
    {
      left := env.currentFor;
      EnterSection();
      if !current {
        return Error(REPLACED);
      }
      var previousServer, previousToken := server, token;
      forward := Left(forward, env.removedBefore);
      if env.configError.Some? {
        return Error(env.configError.value);
      }
      var ok := PublishServerIfCurrent(View(workspace, Progress("starting"), "", ""), "");
      if !ok {
        return Error(REPLACED);
      }
      PublishProgress(workspace, env.steps);
      if env.boot.BootError? {
        PublishFailedServeStart(previousServer, previousToken, View(workspace, Failed, "", env.boot.error));
        return Error(env.boot.error);
      }
      EnterSection();
      if !current {
        return Error(REPLACED);
      }
      if env.boot.reused && previousServer.state.Ready? && previousServer.workspace == workspace
         && Usable(forward, env.boot.addr, previousServer.localURL) {
        forward := Left(forward, env.removedAfter);
        ok := PublishServerIfCurrent(previousServer, env.boot.token);
        if !ok {
          return Error(REPLACED);
        }
        return Success(previousServer, env.boot.token);
      }
      if env.replaced.BindError? {
        if !env.boot.reused {
          remoteStops := remoteStops + [workspace];
        }
        PublishFailedServeStart(previousServer, previousToken, View(workspace, Failed, "", env.replaced.error));
        return Error(env.replaced.error);
      }
      forward := Left(Some(Forward(env.boot.addr, env.replaced.addr, true)), env.removedAfter);
      var view := View(workspace, Ready, Url(env.replaced.addr), "");
      ok := PublishServerIfCurrent(view, env.boot.token);
      if !ok {
        forward := None;
        return Error(REPLACED);
      }
      return Success(view, env.boot.token);
    }

    /** StopServer: nothing to stop without a workspace; a failed remote stop
        leaves everything; otherwise the forward goes and a stopped view shows. */
    method StopServer(env: Env, stopError: Option<string>) returns (r: Option<string>)
      modifies this
      ensures r.Some? && current ==> State() == old(State())
      ensures r.None? && current ==>
                && forward == None && token == "" && server == View(old(server.workspace), Halted, "", "")
                && remoteStops == old(remoteStops) + [server.workspace]
                && published == old(published) + [server]
      ensures r.Some? ==> remoteStops == old(remoteStops) && published == old(published)
      ensures current ==> r == if old(Blank(server.workspace)) then Some(NO_WORKSPACE) else stopError
      ensures old(current) && env.currentFor >= 2 ==> current
      ensures !old(current) || env.currentFor == 0 ==> r == Some(REPLACED)
      ensures old(Consistent()) && current ==> Consistent()
    {
      left := env.currentFor;
      EnterSection();
      if !current {
        return Some(REPLACED);
      }
      var workspace := server.workspace;
      if Blank(workspace) {
        return Some(NO_WORKSPACE);
      }
      if stopError.Some? {
        return stopError;
      }
      remoteStops := remoteStops + [workspace];
      forward := None;
      var _ := PublishServerIfCurrent(View(workspace, Halted, "", ""), "");
      return None;
    }
  }
}
