/** Where a hit goes: the branches of handle_hit and process_live_submit (src/app/supervisor.cpp). */
module Routing {
  import opened Text
  import opened Policy
  import opened Responses

  datatype Config = Config(submitEnabled: bool, storeBlocks: bool, xuniMining: bool, forceMineM: int)

  predicate BagOnly(cfg: Config) {
    !cfg.submitEnabled
  }

  predicate ShouldStore(cfg: Config) {
    cfg.storeBlocks || BagOnly(cfg)
  }

  /** What the branches read from the clock and from shared network state, each at its own moment. */
  datatype Gates = Gates(
    inXuniWindow: bool,
    draining: bool,
    liveAllowed: bool,
    matches: bool,         // the hit's m is the last-good network m
    allowedAgain: bool,    // the same two, read again to choose a reason
    matchesAgain: bool,
    networkOk: bool,
    networkM: int,
    hitM: int,
    deferring: bool,       // still inside the pause after a difficulty change
    verifyReady: bool)

  datatype Route = ToBag(reason: string) | ToLive | Post | Dropped

  /** The mining thread, for a prepared hit. */
  function HandleHit(cfg: Config, shuttingDown: bool, kind: string, g: Gates): Route {
    if BagOnly(cfg) then ToBag(BAG_ONLY)
    else if shuttingDown then
      ToBag(if kind == "XUNI" && !g.inXuniWindow then OUTSIDE_XUNI_WINDOW else SHUTDOWN_PENDING)
    else if kind == "XUNI" && !g.inXuniWindow then
      if ShouldStore(cfg) then ToBag(OUTSIDE_XUNI_WINDOW) else Dropped
    else if g.draining then ToBag(MATCH_WINDOW_NEW)
    else if !(g.liveAllowed && g.matches) then
      if !ShouldStore(cfg) then Dropped
      else if g.networkOk && g.networkM > 0 && g.networkM != g.hitM then ToBag(DIFFICULTY_CHANGE)
      else if cfg.forceMineM <= 0 && g.deferring then ToBag(DIFFICULTY_CHANGE)
      else ToBag(NETWORK_DOWN)
    else ToLive
  }

  /** The submit worker, before it posts a live hit. */
  function BeforePost(cfg: Config, shuttingDown: bool, kind: string, g: Gates): Route {
    if BagOnly(cfg) then ToBag(BAG_ONLY)
    else if shuttingDown then ToBag(SHUTDOWN_PENDING)
    else if kind == "XUNI" && !cfg.xuniMining && !ShouldStore(cfg) then Dropped
    else if kind == "XUNI" && !g.inXuniWindow then
      if ShouldStore(cfg) then ToBag(OUTSIDE_XUNI_WINDOW) else Dropped
    else if !(g.liveAllowed && g.matches) then
      if !ShouldStore(cfg) then Dropped
      else if g.allowedAgain && !g.matchesAgain then ToBag(DIFFICULTY_CHANGE)
      else ToBag(NETWORK_DOWN)
    else if !g.verifyReady then
      if ShouldStore(cfg) then ToBag(NETWORK_DOWN) else Dropped
    else Post
  }

  /** What happens to a posted hit that was not accepted. */
  function AfterRefusal(cfg: Config, status: int, body: string): Route {
    if IsDifficultyMismatch(status, body) then
      if ShouldStore(cfg) then ToBag(DIFFICULTY_CHANGE) else Dropped
    else if IsPoolHold(status, body) then ToBag(DIFFICULTY_CHANGE)
    else if status == 0 || IsTransient(status, body) then ToBag(NETWORK_DOWN)
    else if IsXuniWindowReject(status, body) then ToBag(OUTSIDE_XUNI_WINDOW)
    else ToBag(RESUBMISSION)
  }

  /** With storing on, no branch drops a hit; with it off, these do and no others. */
  lemma DropsExactly(cfg: Config, down: bool, kind: string, g: Gates, status: int, body: string)
    ensures HandleHit(cfg, down, kind, g) == Dropped <==>
      !ShouldStore(cfg) && !down
      && ((kind == "XUNI" && !g.inXuniWindow) || (!g.draining && !(g.liveAllowed && g.matches)))
    ensures BeforePost(cfg, down, kind, g) == Dropped <==>
      !ShouldStore(cfg) && !down
      && ((kind == "XUNI" && !(cfg.xuniMining && g.inXuniWindow))
          || !(g.liveAllowed && g.matches && g.verifyReady))
    ensures AfterRefusal(cfg, status, body) == Dropped <==>
      !ShouldStore(cfg) && IsDifficultyMismatch(status, body)
  {
  }

  /** What goes out live, exactly: an open submit path, no window, no shutdown, the last-good m, and for XUNI the
      time of day; and at the post itself a pool that is known to answer. */
  lemma PostsExactly(cfg: Config, down: bool, kind: string, g: Gates)
    ensures HandleHit(cfg, down, kind, g) == ToLive <==>
      cfg.submitEnabled && !down && g.liveAllowed && g.matches && !g.draining && (kind == "XUNI" ==> g.inXuniWindow)
    ensures BeforePost(cfg, down, kind, g) == Post <==>
      cfg.submitEnabled && !down && g.liveAllowed && g.matches && g.verifyReady
      && (kind == "XUNI" ==> g.inXuniWindow && (cfg.xuniMining || ShouldStore(cfg)))
  {
  }

  /** A hit is bagged for a difficulty change or a dead network only while it cannot go out; for a difficulty
      change only if the network was seen at another m, or during the pause after a change; and for the hour only
      when it is XUNI outside its window. */
  lemma ReasonsTell(cfg: Config, down: bool, kind: string, g: Gates)
    ensures HandleHit(cfg, down, kind, g) == ToBag(DIFFICULTY_CHANGE) ==>
      !g.liveAllowed || !g.matches
    ensures HandleHit(cfg, down, kind, g) == ToBag(NETWORK_DOWN) ==>
      (!g.liveAllowed || !g.matches) && !(g.networkOk && g.networkM > 0 && g.networkM != g.hitM)
    ensures HandleHit(cfg, down, kind, g) == ToBag(DIFFICULTY_CHANGE) && g.networkM == g.hitM ==>
      cfg.forceMineM <= 0 && g.deferring
    ensures BeforePost(cfg, down, kind, g) == ToBag(DIFFICULTY_CHANGE) ==>
      (!g.liveAllowed || !g.matches) && g.allowedAgain && !g.matchesAgain
    ensures HandleHit(cfg, down, kind, g) == ToBag(OUTSIDE_XUNI_WINDOW) ==> kind == "XUNI" && !g.inXuniWindow
    ensures BeforePost(cfg, down, kind, g) == ToBag(OUTSIDE_XUNI_WINDOW) ==> kind == "XUNI" && !g.inXuniWindow
  {
  }

  /** The reason of every bagged hit, exactly. */
  lemma ReasonsExactly(cfg: Config, down: bool, kind: string, g: Gates)
    requires ShouldStore(cfg)
    ensures var late := kind == "XUNI" && !g.inXuniWindow;
      var goes := g.liveAllowed && g.matches;
      var moved := (g.networkOk && g.networkM > 0 && g.networkM != g.hitM) || (cfg.forceMineM <= 0 && g.deferring);
      && (HandleHit(cfg, down, kind, g) ==
            if !cfg.submitEnabled then ToBag("bag_only")
            else if late then ToBag("outside_xuni_window")
            else if down then ToBag("shutdown_pending")
            else if g.draining then ToBag("match_window_new")
            else if goes then ToLive
            else if moved then ToBag("difficulty_change") else ToBag("network_down"))
      && (BeforePost(cfg, down, kind, g) ==
            if !cfg.submitEnabled then ToBag("bag_only")
            else if down then ToBag("shutdown_pending")
            else if late then ToBag("outside_xuni_window")
            else if goes && g.verifyReady then Post
            else if !goes && g.allowedAgain && !g.matchesAgain then ToBag("difficulty_change")
            else ToBag("network_down"))
  {
  }

  /** A refused hit comes back for another m when the pool says so or holds it, after a broken connection when the
      network is back, for XUNI in its window, and is sent once more otherwise. */
  lemma RefusedReasons(cfg: Config, status: int, body: string)
    requires ShouldStore(cfg)
    ensures var wrongM :=
        status != 0 && Says(body, "does not contain") && (Says(body, "m=") || Says(body, "memory_cost"));
      var shed := status in {401, 403, 429} || Says(body, "hash verification failed");
      var broken := status == 0 || Says(body, "timed out") || Says(body, "timeout") || Says(body, "connection");
      var closed := Says(body, "time frame") || Says(body, "time window");
      AfterRefusal(cfg, status, body) == ToBag(
        if wrongM || shed then "difficulty_change" else if broken then "network_down"
        else if closed then "outside_xuni_window" else "resubmission")
  {
    ShortPhrases(status, body);
    hide Lower, Contains;
  }
}
