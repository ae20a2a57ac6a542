/** The console game loop of main.py: a fresh session built by
    `initialize_game`, and the turn that `game_loop` repeats while its local
    `running` flag is set. Console output, the prompt and the one-second pause
    are not modelled; the lines the player types are a sequence of strings,
    and the turn is specified on each line after `strip()`. */
module Game {
  import opened PyString

  /** The player character. main.py only reads it, so it is a value. */
  datatype Character = Character(name: string, health: int, abilities: seq<string>)

  const StartPlayer := Character("Victor", 100, ["laser_eyes", "super_strength"])
  const StartInventory: seq<string> := ["Health Potion", "Shield"]
  /** Progress added by one '1' turn, and the progress that completes the mission. */
  const Increment := 10
  const Goal := 100

  /** The two fields of the session object that main.py reads and writes. */
  class GameState {
    var inventory: seq<string>
    var missionProgress: int

    constructor ()
      ensures inventory == [] && missionProgress == 0
    {
      inventory := [];
      missionProgress := 0;
    }
  }

  /** Everything a turn can look at: the game state, the loop's `running`
      flag and the player. */
  datatype Snapshot = Snapshot(progress: int, running: bool, inventory: seq<string>, player: Character)

  /** What `initialize_game` returns, with `running` set as `game_loop` sets it. */
  function Fresh(): (r: Snapshot)
    ensures r.running && r.progress == 0 && InPlay(r)
    ensures r.inventory == StartInventory && r.player == StartPlayer
  {
    Snapshot(0, true, StartInventory, StartPlayer)
  }

  /** One turn of the loop on the stripped input line `cmd`. */
  function Next(s: Snapshot, cmd: string): (t: Snapshot)
    ensures t.inventory == s.inventory && t.player == s.player
    ensures cmd == "1" ==>
              t.progress == s.progress + Increment && (t.running <==> s.running && t.progress < Goal)
    ensures cmd == "q" ==> t.progress == s.progress && !t.running
    ensures cmd != "1" && cmd != "q" ==> t == s
  {
    if cmd == "1" then
      var p := s.progress + Increment;
      s.(progress := p, running := if p >= Goal then false else s.running)
    else if cmd == "q" then s.(running := false)
    else s
  }

  /** The final snapshot of a run of the loop and how many lines it read. */
  datatype Outcome = Outcome(final: Snapshot, consumed: nat)

  /** The loop on the stripped lines: take turns while `running` holds and
      a line remains. */
  function RunFrom(s: Snapshot, cmds: seq<string>): (o: Outcome)
    ensures o.consumed <= |cmds|
    ensures o.consumed < |cmds| ==> !o.final.running
    ensures !s.running ==> o == Outcome(s, 0)
    ensures o.final.inventory == s.inventory && o.final.player == s.player
    ensures o.final.progress >= s.progress
    decreases |cmds|
  {
    if !s.running || cmds == [] then Outcome(s, 0)
    else
      var o := RunFrom(Next(s, cmds[0]), cmds[1..]);
      Outcome(o.final, o.consumed + 1)
  }

  /** The input lines as the loop compares them, each after `strip()`. */
  function Commands(lines: seq<string>): (cmds: seq<string>)
    ensures |cmds| == |lines|
    ensures forall i :: 0 <= i < |lines| ==> cmds[i] == Strip(lines[i])
  {
    seq(|lines|, i requires 0 <= i < |lines| => Strip(lines[i]))
  }

  /** The number of commands that select the '1' branch. */
  function Continues(cmds: seq<string>): nat {
    if cmds == [] then 0
    else (if cmds[0] == "1" then 1 else 0) + Continues(cmds[1..])
  }

  predicate NoQuit(cmds: seq<string>) {
    forall i :: 0 <= i < |cmds| ==> cmds[i] != "q"
  }

  /** The invariant of a session started fresh: progress is a multiple of ten
      no greater than 100, and below 100 while the loop runs. */
  predicate InPlay(s: Snapshot) {
    s.progress % Increment == 0 && 0 <= s.progress <= Goal && (s.running ==> s.progress < Goal)
  }

  /** Counting the '1' commands of a non-empty prefix, the first one apart. */
  lemma ContinuesPrefix(cmds: seq<string>, k: nat)
    requires 0 < k <= |cmds|
    ensures Continues(cmds[..k])
            == (if cmds[0] == "1" then 1 else 0) + Continues(cmds[1..][..k - 1])
  {
    var read := cmds[..k];
    assert read[0] == cmds[0];
    assert read[1..] == cmds[1..][..k - 1];
  }

  /** A turn from a state of the invariant, taken while running, keeps it. */
  lemma NextKeepsInPlay(s: Snapshot, cmd: string)
    requires InPlay(s) && s.running
    ensures InPlay(Next(s, cmd))
  {
  }

  /** The loop keeps the invariant. */
  lemma {:induction false} RunKeepsInPlay(s: Snapshot, cmds: seq<string>)
    requires InPlay(s)
    ensures InPlay(RunFrom(s, cmds).final)
    decreases |cmds|
  {
    if s.running && cmds != [] {
      NextKeepsInPlay(s, cmds[0]);
      RunKeepsInPlay(Next(s, cmds[0]), cmds[1..]);
    }
  }

  /** Each '1' command the loop reads adds exactly ten; no other command adds anything. */
  lemma {:induction false} RunProgress(s: Snapshot, cmds: seq<string>)
    ensures var o := RunFrom(s, cmds);
            o.final.progress == s.progress + Increment * Continues(cmds[..o.consumed])
    decreases |cmds|
  {
    var o := RunFrom(s, cmds);
    if s.running && cmds != [] {
      var o' := RunFrom(Next(s, cmds[0]), cmds[1..]);
      RunProgress(Next(s, cmds[0]), cmds[1..]);
      ContinuesPrefix(cmds, o.consumed);
    } else {
      assert cmds[..o.consumed] == [];
    }
  }

  /** From a fresh start the loop reads at most ten '1' commands, progress is ten
      per '1' command read, and it has reached 100 exactly when ten were read, in
      which case the loop has stopped. */
  lemma FreshRunBounds(cmds: seq<string>)
    ensures var o := RunFrom(Fresh(), cmds);
            var n := Continues(cmds[..o.consumed]);
            && n <= Goal / Increment
            && o.final.progress == Increment * n
            && InPlay(o.final)
            && (n == Goal / Increment <==> o.final.progress == Goal)
            && (n == Goal / Increment ==> !o.final.running)
  {
    RunProgress(Fresh(), cmds);
    RunKeepsInPlay(Fresh(), cmds);
  }

  lemma NoQuitTail(cmds: seq<string>)
    requires NoQuit(cmds) && cmds != []
    ensures cmds[0] != "q" && NoQuit(cmds[1..])
  {
    forall i | 0 <= i < |cmds[1..]| ensures cmds[1..][i] != "q" {
      assert cmds[1..][i] == cmds[i + 1];
    }
  }

  /** A turn that stops a running session of the invariant without a 'q' is
      the '1' that brings progress to exactly 100. */
  lemma CompletingTurn(s: Snapshot, cmd: string)
    requires InPlay(s) && s.running && cmd != "q" && !Next(s, cmd).running
    ensures cmd == "1" && s.progress == Goal - Increment && Next(s, cmd).progress == Goal
  {
  }

  /** Without a 'q', a running session that is sent enough '1' commands stops on
      the '1' command that brings progress to exactly 100. */
  lemma {:induction false} RunCompletes(s: Snapshot, cmds: seq<string>)
    requires InPlay(s) && s.running && NoQuit(cmds)
    requires s.progress + Increment * Continues(cmds) >= Goal
    ensures var o := RunFrom(s, cmds);
            && o.final.progress == Goal && !o.final.running
            && 0 < o.consumed && cmds[o.consumed - 1] == "1"
            && s.progress + Increment * Continues(cmds[..o.consumed]) == Goal
    decreases |cmds|
  {
    assert cmds != [];
    NoQuitTail(cmds);
    var t := Next(s, cmds[0]);
    var o := RunFrom(s, cmds);
    assert t.progress + Increment * Continues(cmds[1..]) == s.progress + Increment * Continues(cmds);
    if t.running {
      var o' := RunFrom(t, cmds[1..]);
      assert o == Outcome(o'.final, o'.consumed + 1);
      NextKeepsInPlay(s, cmds[0]);
      RunCompletes(t, cmds[1..]);
      ContinuesPrefix(cmds, o.consumed);
      assert cmds[o.consumed - 1] == cmds[1..][o'.consumed - 1];
    } else {
      CompletingTurn(s, cmds[0]);
      assert o == Outcome(t, 1);
      ContinuesPrefix(cmds, 1);
    }
  }

  /** From a fresh start, with no 'q', the loop ends on the tenth '1' command,
      with progress 100. */
  lemma FreshCompletesOnTenth(cmds: seq<string>)
    requires NoQuit(cmds) && Continues(cmds) >= Goal / Increment
    ensures var o := RunFrom(Fresh(), cmds);
            && o.final.progress == Goal && !o.final.running
            && Continues(cmds[..o.consumed]) == Goal / Increment
            && cmds[o.consumed - 1] == "1"
  {
    RunCompletes(Fresh(), cmds);
  }

  /** The branch, and so the turn, does not depend on whitespace around the line. */
  lemma NextIgnoresSurroundingSpace(s: Snapshot, pre: string, line: string, post: string)
    requires AllSpace(pre) && AllSpace(post)
    ensures Next(s, Strip(pre + line + post)) == Next(s, Strip(line))
  {
    StripIgnoresSurroundingSpace(pre, line, post);
  }

  /** An unrecognised command is skipped: the loop goes on as if it were
      absent, having read one more line. */
  lemma InvalidCommandSkipped(s: Snapshot, cmd: string, rest: seq<string>)
    requires s.running && cmd != "1" && cmd != "q"
    ensures var o := RunFrom(s, rest);
            RunFrom(s, [cmd] + rest) == Outcome(o.final, o.consumed + 1)
  {
    assert ([cmd] + rest)[1..] == rest;
  }

  /** `initialize_game`: a new game state carrying the starting inventory and
      zero progress, and the starting player. */
  method InitializeGame() returns (state: GameState, player: Character)
    ensures fresh(state)
    ensures state.inventory == StartInventory && state.missionProgress == 0
    ensures player == StartPlayer
  {
    state := new GameState();
    player := Character("Victor", 100, ["laser_eyes", "super_strength"]);
    state.inventory := ["Health Potion", "Shield"];
    state.missionProgress := 0;
  }

  function Observe(state: GameState, running: bool, player: Character): Snapshot
    reads state
  {
    Snapshot(state.missionProgress, running, state.inventory, player)
  }

  /** The branches of the `while running:` loop body on the stripped input
      line: they update the game state in place and return the new value of
      `running`. */
  method Turn(state: GameState, player: Character, running: bool, userInput: string)
    returns (stillRunning: bool)
    modifies state
    ensures Observe(state, stillRunning, player)
            == Next(Snapshot(old(state.missionProgress), running, old(state.inventory), player), userInput)
  {
    stillRunning := running;
    if userInput == "1" {
      state.missionProgress := state.missionProgress + Increment;
      if state.missionProgress >= Goal {
        stillRunning := false;
      }
    } else if userInput == "q" {
      stillRunning := false;
    }
  }

  /** `game_loop`: initialise, then take turns while `running` holds and a
      line remains. It returns the final snapshot and the number of lines read. */
  method GameLoop(lines: seq<string>) returns (final: Snapshot, consumed: nat)
    ensures Outcome(final, consumed) == RunFrom(Fresh(), Commands(lines))
    ensures consumed <= |lines| && (consumed < |lines| ==> !final.running)
    ensures final.inventory == StartInventory && final.player == StartPlayer
    ensures final.progress % Increment == 0 && 0 <= final.progress <= Goal
    ensures final.running ==> final.progress < Goal
    ensures Continues(Commands(lines)[..consumed]) <= Goal / Increment
            && final.progress == Increment * Continues(Commands(lines)[..consumed])
  {
    ghost var cmds := Commands(lines);
    var state, player := InitializeGame();
    var running := true;
    var i := 0;
    while running && i < |lines|
      invariant 0 <= i <= |lines|
      invariant var o := RunFrom(Observe(state, running, player), cmds[i..]);
                RunFrom(Fresh(), cmds) == Outcome(o.final, i + o.consumed)
    {
      assert cmds[i..][1..] == cmds[i + 1..] && cmds[i..][0] == Strip(lines[i]);
      var userInput := Strip(lines[i]);
      running := Turn(state, player, running, userInput);
      i := i + 1;
    }
    final, consumed := Observe(state, running, player), i;
    FreshRunBounds(cmds);
  }
}
