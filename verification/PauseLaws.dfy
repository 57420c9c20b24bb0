/** What a delivery and a click do to the pause on screen, one at a time, and what one click on the
    pause shown comes to (controller.rs, bus.rs). */
module PauseLaws {
  import opened Wrappers
  import opened Bus
  import opened PauseClicks

  /** A pause delivered is on screen under a generation no event had before; a connection or a plain end takes
      it off the screen; data leaves it. */
  lemma DeliveredPauseIsShown(s: System)
    requires Possible(s, Deliver)
    ensures var t := Moved(s, Deliver);
      && t.bus.events == s.bus.events[1..]
      && match s.bus.events[0]
         case PowerPaused =>
           t.paused && t.generation == t.epoch == s.epoch + 1 && t.ledger == s.ledger + [t.generation]
         case Data(_, _) => t.paused == s.paused && t.generation == s.generation && t.epoch == s.epoch
         case _ => !t.paused && t.epoch == s.epoch + 1 && t.ledger == s.ledger
  {
  }

  /** A click is forwarded if and only if a pause is on screen, under the generation clicked, and the latch is
      set; any other click changes nothing. */
  lemma ClickIsForwardedIff(s: System, generation: nat)
    requires Possible(s, ClickSwap(generation))
    ensures var t := Moved(s, ClickSwap(generation));
      if s.paused && s.generation == generation && s.bus.powerPaused then
        t.resuming == Some(generation) && !t.bus.powerPaused && t.bus.resumesInFlight == s.bus.resumesInFlight + 1
      else t == s
  {
  }

  /** A forwarded click is queued, and the pause leaves the screen; or, with the queue full or the actor gone,
      the pause stays on screen with its latch set again, to be clicked once more. */
  lemma ClickIsQueuedOrMayBeRepeated(s: System)
    requires Possible(s, ClickSend)
    ensures var t := Moved(s, ClickSend);
      && t.resuming == None && t.generation == s.generation
      && if |s.bus.commands| < 64 && s.bus.phase != Stopped then
           !t.paused && t.bus.commands == s.bus.commands + [Resume]
         else
           t.paused == s.paused && t.bus.powerPaused && t.bus.commands == s.bus.commands
  {
  }

  /** So one click on the pause shown ends it: the actor, asleep with nothing else queued, dials again. */
  lemma ClickEndsThePause(s: System)
    requires s.paused && s.resuming == None && s.bus.powerPaused && s.bus.phase == Paused && s.bus.commands == []
    ensures Possible(s, ClickSwap(s.generation))
    ensures var a := Moved(s, ClickSwap(s.generation));
      && Possible(a, ClickSend)
      && var b := Moved(a, ClickSend);
      && Possible(b, BusMove(OfflineCommand))
      && var t := Moved(b, BusMove(OfflineCommand));
      && t.bus.phase == Dialing && !t.bus.paused && !t.paused && t.bus.socket == s.bus.socket + 1
      && t.bus.commands == [] && !t.bus.powerPaused
  {
  }
}
