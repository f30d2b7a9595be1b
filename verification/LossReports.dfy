/** Reports that a link was lost, over whole runs: each concerns the link its connection was handed
    out for and no other, and says something once at most. */
module LossReports {
  import opened Wrappers
  import opened Lifecycle
  import opened TunnelPolicy
  import opened TunnelRuns
  import TunnelTheorems

  /** The link of the connection a loss is reported on. */
  function ReportedLink(w: World, step: Step): LinkId
    requires step.Lost? && step.generation in w.handles
  {
    w.handles[step.generation].link
  }

  /** The connections of this process hold links of their own, attached for their subdomain. */
  ghost predicate HandlesSound(w: World) {
    && (forall g | g in w.handles ::
          w.handles[g].link in w.links && w.links[w.handles[g].link].subdomain == w.handles[g].subdomain)
    && (forall g, h | g in w.handles && h in w.handles :: w.handles[g].link == w.handles[h].link ==> g == h)
  }

  lemma InstalledHandles(w: World, v: World, s: Subdomain, link: LinkId)
    requires HandlesSound(w) && Installed(w, v, s, link)
    ensures HandlesSound(v)
  {
  }

  lemma LeavingHandles(w: World, v: World, s: Subdomain, reasons: seq<CloseReason>, fate: Fate)
    requires HandlesSound(w) && Detached(w, v, s, reasons, fate)
    ensures HandlesSound(v)
  {
  }

  lemma StepKeepsHandles(w: World, step: Step)
    requires HandlesSound(w) && Enabled(w, step)
    ensures HandlesSound(Next(w, step))
  {
    match step
    case ClaimTunnel(_, _, _, _, _) => ClaimKeepsHandles(w, step);
    case RevokeTunnel(_, _, _, _, _) =>
      RevokeMoves(w, step);
      hide Next, Enabled, RevokeStep, HandlesSound, ClaimsMoved;
      if RevokeEffect(w, step).result.Ok? && step.subdomain in w.tunnels.live {
        LeavingHandles(w, Next(w, step), step.subdomain, [RevokedClose], ByRevocation);
      } else {
        SameHandles(w, Next(w, step));
      }
    case Attach(claim, link, _, _, _, _, _) =>
      AttachMoves(w, step);
      hide Next, Enabled, AttachStep, HandlesSound;
      if AttachEffect(w, step).result.Ok? {
        InstalledHandles(w, Next(w, step), claim.subdomain, link);
      } else {
        SameHandles(w, Next(w, step));
      }
    case Lost(_, _, _) =>
      LostMoves(w, step);
      hide Next, Enabled, LostStep, HandlesSound;
      if SameTables(w, Next(w, step)) {
        SameHandles(w, Next(w, step));
      } else {
        LeavingHandles(w, Next(w, step), w.handles[step.generation].subdomain, [], ByLoss);
      }
    case Crash => CrashKeepsHandles(w);
  }

  lemma SameHandles(w: World, v: World)
    requires HandlesSound(w) && v.handles == w.handles && v.links == w.links
    ensures HandlesSound(v)
  {
  }

  lemma ClaimKeepsHandles(w: World, step: Step)
    requires HandlesSound(w) && step.ClaimTunnel? && Enabled(w, step)
    ensures HandlesSound(Next(w, step))
  {
    hide ClaimStep;
  }

  lemma CrashKeepsHandles(w: World)
    requires HandlesSound(w)
    ensures HandlesSound(Next(w, Crash))
  {
  }

  lemma InitialHandles(principal: string)
    ensures HandlesSound(Initial(principal))
  {
  }

  lemma {:induction false} AlwaysHandles(principal: string, ws: seq<World>, steps: seq<Step>, i: nat)
    requires TunnelTheorems.Behavior(principal, ws, steps) && i < |ws|
    ensures HandlesSound(ws[i])
    decreases i
  {
    hide Next, Enabled, HandlesSound;
    if i == 0 {
      InitialHandles(principal);
    } else {
      AlwaysHandles(principal, ws, steps, i - 1);
      StepKeepsHandles(ws[i - 1], steps[i - 1]);
    }
  }

  /** A connection's link is in the table exactly when its own generation serves. */
  lemma ServesItsOwn(w: World, generation: nat)
    requires TableSound(w) && LinksSound(w) && HandlesSound(w) && generation in w.handles
    ensures w.links[w.handles[generation].link].fate == InTable
       <==> w.handles[generation].subdomain in w.tunnels.live
            && w.tunnels.live[w.handles[generation].subdomain].generation == generation
  {
    var s, link := w.handles[generation].subdomain, w.handles[generation].link;
    if s in w.tunnels.live && w.tunnels.live[s].link == link {
      assert w.handles[w.tunnels.live[s].generation].link == link;
    }
  }

  /** What a report does, in terms of the link it is about. */
  lemma ReportMoves(w: World, step: Step)
    requires TableSound(w) && LinksSound(w) && HandlesSound(w) && step.Lost? && Enabled(w, step)
    ensures var v, l := Next(w, step), ReportedLink(w, step);
      && l in w.links && l in v.links
      && (if w.links[l].fate == InTable && step.committed
          then Detached(w, v, w.handles[step.generation].subdomain, [], ByLoss)
               && w.tunnels.live[w.handles[step.generation].subdomain].link == l
          else v.tunnels == w.tunnels && v.links == w.links && v.handles == w.handles)
      && (LostEffect(w, step).result.Err? <==> w.links[l].fate == InTable && !step.committed)
  {
    LostMoves(w, step);
    ServesItsOwn(w, step.generation);
    hide Next, LinksSound;
  }

  /** In every run, a report on a link that was superseded, evicted or reported before succeeds and
      changes nothing, whoever serves the subdomain now; a report changes anything exactly when its link is
      in the table and the write commits; and then it takes that one link out of the table, never
      to close it, and leaves every other link and every other subdomain as it was. */
  lemma StaleLossIsSilent(principal: string, ws: seq<World>, steps: seq<Step>, i: nat)
    requires TunnelTheorems.Behavior(principal, ws, steps) && i < |steps| && steps[i].Lost?
    ensures steps[i].generation in ws[i].handles
    ensures var w, v, l := ws[i], ws[i + 1], ReportedLink(ws[i], steps[i]);
      && l in w.links && l in v.links
      && (w.links[l].fate != InTable ==> v.tunnels == w.tunnels && v.links == w.links)
      && (v.tunnels != w.tunnels <==> w.links[l].fate == InTable && steps[i].committed)
      && (v.links != w.links <==> w.links[l].fate == InTable && steps[i].committed)
      && (LostEffect(w, steps[i]).result.Err? <==> w.links[l].fate == InTable && !steps[i].committed)
    ensures var w, v, l := ws[i], ws[i + 1], ReportedLink(ws[i], steps[i]);
      && (forall o | o in w.links && o != l :: o in v.links && v.links[o] == w.links[o])
      && (forall s | s in w.tunnels.live && w.tunnels.live[s].link != l :: s in v.tunnels.live && v.tunnels.live[s] == w.tunnels.live[s])
      && (v.links != w.links ==> v.links[l] == w.links[l].(fate := ByLoss))
  {
    TunnelTheorems.AlwaysSound(principal, ws, steps, i);
    TunnelTheorems.SoundTables(ws[i]);
    AlwaysHandles(principal, ws, steps, i);
    assert Enabled(ws[i], steps[i]) && ws[i + 1] == Next(ws[i], steps[i]);
    TunnelTheorems.SoundParts(ws[i]);
    ReportEffects(ws[i], steps[i]);
  }

  lemma ReportEffects(w: World, step: Step)
    requires TablesSound(w) && HandlesSound(w) && step.Lost? && Enabled(w, step)
    ensures var v, l := Next(w, step), ReportedLink(w, step);
      && l in w.links && l in v.links
      && (v.tunnels != w.tunnels <==> w.links[l].fate == InTable && step.committed)
      && (v.links != w.links <==> w.links[l].fate == InTable && step.committed)
      && (LostEffect(w, step).result.Err? <==> w.links[l].fate == InTable && !step.committed)
      && (forall o | o in w.links && o != l :: o in v.links && v.links[o] == w.links[o])
      && (forall s | s in w.tunnels.live && w.tunnels.live[s].link != l :: s in v.tunnels.live && v.tunnels.live[s] == w.tunnels.live[s])
      && (v.links != w.links ==> v.links[l] == w.links[l].(fate := ByLoss))
  {
    ReportMoves(w, step);
    hide Next, Enabled, TablesSound, HandlesSound;
    var s, l := w.handles[step.generation].subdomain, ReportedLink(w, step);
    var v := Next(w, step);
    if w.links[l].fate == InTable && step.committed {
      assert s in w.tunnels.live && s !in v.tunnels.live;
      assert v.links == w.links[l := w.links[l].(closes := w.links[l].closes + [], fate := ByLoss)];
      assert w.links[l].closes + [] == w.links[l].closes;
      assert v.links[l].fate == ByLoss;
    }
  }

  /** A recorded loss is final: no later report on the same link, on whatever connection and
      however much later in the run, changes anything. */
  lemma RecordedLossIsFinal(principal: string, ws: seq<World>, steps: seq<Step>, i: nat, j: nat)
    requires TunnelTheorems.Behavior(principal, ws, steps) && i < j < |steps| && steps[i].Lost? && steps[j].Lost?
    requires steps[i].generation in ws[i].handles && steps[j].generation in ws[j].handles
    requires ws[i + 1].tunnels != ws[i].tunnels && ReportedLink(ws[j], steps[j]) == ReportedLink(ws[i], steps[i])
    ensures ws[j + 1].tunnels == ws[j].tunnels && ws[j + 1].links == ws[j].links
  {
    hide Next, Enabled;
    StaleLossIsSilent(principal, ws, steps, i);
    TunnelTheorems.FateIsSealed(principal, ws, steps, i + 1, j, ReportedLink(ws[i], steps[i]));
    StaleLossIsSilent(principal, ws, steps, j);
  }
}
