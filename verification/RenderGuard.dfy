/** ProcurementNoticeContextRenderGuard: hides the notice rows until the requested context is
    ready to be painted. An empty `pendingKey` ref is `None`; frames still to fire are kept in
    `frames`, and `revealFrame` is the handle the guard remembers (0 for none). */
module RenderGuard {
  import opened Text
  import opened QueryContext
  import opened DataClient

  datatype Pending = Pending(key: QueryKey, failed: bool)

  datatype Guard = Guard(
    pendingKey: Option<QueryKey>, pending: Option<Pending>,
    frames: map<nat, QueryKey>, revealFrame: nat, nextFrame: nat)

  const QUIET := Guard(None, None, map[], 0, 1)

  function OnLifecycle(g: Guard, key: QueryKey, phase: Phase): Guard {
    match phase
    case ColdStart =>
      g.(frames := g.frames - {g.revealFrame}, pendingKey := Some(key), pending := Some(Pending(key, false)))
    case CacheHit(_) =>
      g.(frames := g.frames - {g.revealFrame}, pendingKey := None, pending := None)
    case Success =>
      if g.pendingKey != Some(key) then g
      else g.(frames := g.frames[g.nextFrame := key], revealFrame := g.nextFrame, nextFrame := g.nextFrame + 1)
    case Error =>
      if g.pendingKey != Some(key) then g else g.(pending := Some(Pending(key, true)))
    case Aborted => g
  }

  function OnFrame(g: Guard, id: nat): Guard {
    if id !in g.frames then g
    else if g.pendingKey != Some(g.frames[id]) then g.(frames := g.frames - {id})
    else g.(frames := g.frames - {id}, pendingKey := None, pending := None)
  }

  class NoticeRenderGuard {
    var pendingKey: Option<QueryKey>
    var pending: Option<Pending>
    var revealFrame: nat
    var frames: map<nat, QueryKey>
    var nextFrame: nat

    ghost function View(): Guard
      reads this
    {
      Guard(pendingKey, pending, frames, revealFrame, nextFrame)
    }

    constructor ()
      ensures View() == QUIET
    {
      pendingKey, pending, revealFrame, frames, nextFrame := None, None, 0, map[], 1;
    }

    method CancelFrame(id: nat)
      modifies this`frames
      ensures frames == old(frames) - {id}
    {
      frames := frames - {id};
    }

    method HandleLifecycle(key: QueryKey, phase: Phase)
      requires nextFrame > 0 && 0 !in frames
      modifies this
      ensures View() == OnLifecycle(old(View()), key, phase)
      ensures nextFrame > 0 && 0 !in frames
    {
      if phase.ColdStart? {
        if revealFrame != 0 { CancelFrame(revealFrame); } else { assert frames - {0} == frames; }
        pendingKey := Some(key);
        pending := Some(Pending(key, false));
        return;
      }
      if phase.CacheHit? {
        if revealFrame != 0 { CancelFrame(revealFrame); } else { assert frames - {0} == frames; }
        pendingKey := None;
        pending := None;
        return;
      }
      if pendingKey != Some(key) { return; }
      if phase.Success? {
        revealFrame := nextFrame;
        frames := frames[nextFrame := key];
        nextFrame := nextFrame + 1;
        return;
      }
      if phase.Error? {
        pending := Some(Pending(key, true));
        return;
      }
    }

    method FireFrame(id: nat)
      modifies this
      ensures View() == OnFrame(old(View()), id)
    {
      if id !in frames { return; }
      var key := frames[id];
      frames := frames - {id};
      if pendingKey != Some(key) { return; }
      pendingKey := None;
      pending := None;
    }
  }
}
