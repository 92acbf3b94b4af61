/** The round state of src/headers/game.hpp: score, lives, the tick clock,
    the super-mode flag and the tick it was armed at, the dot counters, the
    status message and the running flag, with the inline mutators through
    which the entities change them. */
module Round {

  const RoundStart: string := "Round start!"
  const SuperModeOn: string := "Super mode is now active!"
  const SuperModeOver: string := "Super mode is now over."
  const EatenByGhost: string := "You were eaten by a ghost! You lost a life. :("
  const AteGhost: string := "You ate a ghost! +100 SCORE!"

  /** A snapshot of the round state. */
  datatype Counters = Counters(
    score: int,
    lives: int,
    time: int,
    smTime: int,
    dotsEaten: int,
    maxDots: int,
    superMode: bool,
    message: string,
    running: bool)

  /** The counters as the constructor of the game leaves them. */
  const Fresh: Counters := Counters(0, 3, 0, 0, 0, 0, false, RoundStart, false)

  class RoundState {
    var score: int
    var lives: int
    var time: int
    var smTime: int
    var dotsEaten: int
    var maxDots: int
    var superMode: bool
    var message: string
    var gameRunning: bool

    function Snapshot(): Counters
      reads this
    {
      Counters(score, lives, time, smTime, dotsEaten, maxDots, superMode, message, gameRunning)
    }

    constructor ()
      ensures Snapshot() == Fresh
    {
      score, lives, time, smTime := 0, 3, 0, 0;
      dotsEaten, maxDots := 0, 0;
      superMode := false;
      message := RoundStart;
      gameRunning := false;
    }

    method SetScore(s: int)
      modifies this`score
      ensures Snapshot() == old(Snapshot()).(score := s)
    {
      score := s;
    }

    method SetLives(l: int)
      modifies this`lives
      ensures Snapshot() == old(Snapshot()).(lives := l)
    {
      lives := l;
    }

    /** Changes only the flag: the tick it was armed at is left as it was. */
    method SetSuperMode(sm: bool)
      modifies this`superMode
      ensures Snapshot() == old(Snapshot()).(superMode := sm)
      ensures smTime == old(smTime)
    {
      superMode := sm;
    }

    method SetMessage(msg: string)
      modifies this`message
      ensures Snapshot() == old(Snapshot()).(message := msg)
    {
      message := msg;
    }

    method IncrementDotsEaten()
      modifies this`dotsEaten
      ensures Snapshot() == old(Snapshot()).(dotsEaten := old(dotsEaten) + 1)
    {
      dotsEaten := dotsEaten + 1;
    }

    method IncrementScore()
      modifies this`score
      ensures Snapshot() == old(Snapshot()).(score := old(score) + 1)
    {
      score := score + 1;
    }

    method DecrementLives()
      modifies this`lives
      ensures Snapshot() == old(Snapshot()).(lives := old(lives) - 1)
    {
      lives := lives - 1;
    }
  }
}
