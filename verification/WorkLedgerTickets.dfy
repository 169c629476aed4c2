/** Every link of a run is in one place: listed, carried by one worker, or done.  Hence the flush barrier. */
module WorkLedgerTickets {
  import opened Basics
  import opened WorkqueueProtocol
  import opened WorkLedger

  datatype Place = Listed | Carried(a: ActorId) | Done

  function Carries(r: Role): Option<nat> {
    if r.Pops? || r.Runs? then Some(r.ticket) else None
  }

  ghost predicate ListPlaced(list: seq<Link>, place: map<nat, Place>) {
    && (forall i | 0 <= i < |list| :: list[i].ticket in place && place[list[i].ticket] == Listed)
    && (forall i, j | 0 <= i < j < |list| :: list[i].ticket != list[j].ticket)
    && (forall k <- place | place[k] == Listed :: exists i :: 0 <= i < |list| && list[i].ticket == k)
  }

  ghost predicate RolesPlaced(roles: map<ActorId, Role>, place: map<nat, Place>) {
    && (forall a <- roles | Carries(roles[a]).Some? :: roles[a].ticket in place && place[roles[a].ticket] == Carried(a))
    && (forall k <- place | place[k].Carried? :: place[k].a in roles && Carries(roles[place[k].a]) == Some(k))
  }

  ghost predicate OutcomesPlaced(l: Ledger, place: map<nat, Place>) {
    && (forall k :: k in place <==> 0 <= k < l.q.nextTicket)
    && (forall k <- place :: place[k] == Done <==> k in l.q.outcomes)
    && (forall k <- l.q.outcomes :: k in place)
  }

  /** A call is decided exactly for the tickets of running functions and of functions that returned. */
  ghost predicate InvokedPlaced(l: Ledger, place: map<nat, Place>) {
    && (forall k <- l.q.invoked :: k in place)
    && (forall k <- place | place[k] == Done && k in l.q.outcomes :: k in l.q.invoked <==> l.q.outcomes[k] == Returned)
    && (forall k <- place | place[k] == Listed :: k !in l.q.invoked)
    && (forall a <- l.roles | Carries(l.roles[a]).Some? :: l.roles[a].ticket in l.q.invoked <==> l.roles[a].Runs?)
  }

  ghost predicate TicketInv(l: Ledger, place: map<nat, Place>) {
    OutcomesPlaced(l, place) && ListPlaced(l.q.list, place) && RolesPlaced(l.roles, place) && InvokedPlaced(l, place)
  }

  lemma QuietKeepsTickets(l: Ledger, l': Ledger, a: ActorId, place: map<nat, Place>)
    requires TicketInv(l, place) && a in l.roles && a in l'.roles && l'.roles == l.roles[a := l'.roles[a]]
    requires Carries(l.roles[a]) == None == Carries(l'.roles[a])
    requires l'.q.list == l.q.list && l'.q.nextTicket == l.q.nextTicket && l'.q.outcomes == l.q.outcomes && l'.q.invoked == l.q.invoked
    ensures TicketInv(l', place)
  {
    hide ListPlaced;
  }

  lemma AppendPlaced(list: seq<Link>, place: map<nat, Place>, e: Link)
    requires ListPlaced(list, place) && e.ticket !in place
    ensures ListPlaced(list + [e], place[e.ticket := Listed])
  {
    var list', place' := list + [e], place[e.ticket := Listed];
    forall k <- place' | place'[k] == Listed ensures exists i :: 0 <= i < |list'| && list'[i].ticket == k {
      if k == e.ticket {
        assert list'[|list|].ticket == k;
      } else {
        var i :| 0 <= i < |list| && list[i].ticket == k;
        assert list'[i].ticket == k;
      }
    }
  }

  lemma UnlinkPlaced(list: seq<Link>, place: map<nat, Place>, i: nat, p: Place)
    requires ListPlaced(list, place) && i < |list| && p != Listed
    ensures ListPlaced(list[..i] + list[i + 1..], place[list[i].ticket := p])
  {
    var list', place' := list[..i] + list[i + 1..], place[list[i].ticket := p];
    forall k <- place' | place'[k] == Listed ensures exists j :: 0 <= j < |list'| && list'[j].ticket == k {
      var j :| 0 <= j < |list| && list[j].ticket == k;
      assert list'[if j < i then j else j - 1].ticket == k;
    }
  }

  lemma PopPlaced(list: seq<Link>, place: map<nat, Place>, p: Place)
    requires ListPlaced(list, place) && list != [] && p != Listed
    ensures ListPlaced(list[1..], place[list[0].ticket := p])
  {
    UnlinkPlaced(list, place, 0, p);
    assert list[..0] + list[1..] == list[1..];
  }

  lemma CarriedPlaced(list: seq<Link>, place: map<nat, Place>, k: nat, p: Place)
    requires ListPlaced(list, place) && k in place && place[k] != Listed && p != Listed
    ensures ListPlaced(list, place[k := p])
  {
  }

  lemma MoveRoles(roles: map<ActorId, Role>, roles': map<ActorId, Role>, a: ActorId, k: nat, place: map<nat, Place>, p: Place)
    requires RolesPlaced(roles, place) && a in roles && a in roles' && roles' == roles[a := roles'[a]]
    requires k in place && place[k].Carried? ==> place[k] == Carried(a)
    requires Carries(roles[a]) == if k in place && place[k] == Carried(a) then Some(k) else None
    requires Carries(roles'[a]) == if p == Carried(a) then Some(k) else None
    requires p.Carried? ==> p == Carried(a)
    ensures RolesPlaced(roles', place[k := p])
  {
  }

  lemma MoveOutcomes(l: Ledger, l': Ledger, k: nat, place: map<nat, Place>, p: Place)
    requires OutcomesPlaced(l, place) && (k in place ==> place[k] != Done) && (k !in place ==> k == l.q.nextTicket)
    requires l'.q.nextTicket == if k in place then l.q.nextTicket else k + 1
    requires if p == Done then k in l'.q.outcomes && l'.q.outcomes == l.q.outcomes[k := l'.q.outcomes[k]] else l'.q.outcomes == l.q.outcomes
    ensures OutcomesPlaced(l', place[k := p])
  {
  }

  lemma MoveInvoked(l: Ledger, l': Ledger, a: ActorId, k: nat, place: map<nat, Place>, p: Place)
    requires InvokedPlaced(l, place) && RolesPlaced(l.roles, place) && OutcomesPlaced(l, place)
    requires a in l.roles && a in l'.roles && l'.roles == l.roles[a := l'.roles[a]]
    requires k in place ==> place[k] != Done && (place[k].Carried? ==> place[k] == Carried(a))
    requires k !in place ==> k == l.q.nextTicket && k !in l.q.invoked
    requires Carries(l'.roles[a]) == if p == Carried(a) then Some(k) else None
    requires p == Listed ==> k !in place
    requires if p == Done then k in l'.q.outcomes && l'.q.outcomes == l.q.outcomes[k := l'.q.outcomes[k]] else l'.q.outcomes == l.q.outcomes
    requires l'.q.invoked == l.q.invoked
    requires p == Done ==> (k in l.q.invoked <==> l'.q.outcomes[k] == Returned)
    requires p == Carried(a) ==> (k in l.q.invoked <==> l'.roles[a].Runs?)
    ensures InvokedPlaced(l', place[k := p])
  {
  }

  /** Ticket `k` moves to `p`; the list, the outcomes and the role of `a` follow. */
  lemma MoveTicket(l: Ledger, l': Ledger, a: ActorId, k: nat, place: map<nat, Place>, p: Place)
    requires TicketInv(l, place) && a in l.roles && a in l'.roles && l'.roles == l.roles[a := l'.roles[a]]
    requires k in place ==> place[k] != Done && (place[k].Carried? ==> place[k] == Carried(a))
    requires k !in place ==> k == l.q.nextTicket && k !in l.q.invoked
    requires Carries(l.roles[a]) == if k in place && place[k] == Carried(a) then Some(k) else None
    requires Carries(l'.roles[a]) == if p == Carried(a) then Some(k) else None
    requires p.Carried? ==> p == Carried(a)
    requires p == Listed ==> k !in place
    requires ListPlaced(l'.q.list, place[k := p])
    requires l'.q.nextTicket == if k in place then l.q.nextTicket else k + 1
    requires if p == Done then k in l'.q.outcomes && l'.q.outcomes == l.q.outcomes[k := l'.q.outcomes[k]] else l'.q.outcomes == l.q.outcomes
    requires l'.q.invoked == l.q.invoked
    requires p == Done ==> (k in l.q.invoked <==> l'.q.outcomes[k] == Returned)
    requires p == Carried(a) ==> (k in l.q.invoked <==> l'.roles[a].Runs?)
    ensures TicketInv(l', place[k := p])
  {
    hide ListPlaced, RolesPlaced, OutcomesPlaced, InvokedPlaced;
    MoveRoles(l.roles, l'.roles, a, k, place, p);
    MoveOutcomes(l, l', k, place, p);
    MoveInvoked(l, l', a, k, place, p);
  }

  lemma TicketFacts(l: Ledger, place: map<nat, Place>)
    requires TicketInv(l, place)
    ensures l.q.nextTicket !in place && l.q.nextTicket !in l.q.invoked
    ensures ListPlaced(l.q.list, place)
    ensures forall i | 0 <= i < |l.q.list| ::
              l.q.list[i].ticket in place && place[l.q.list[i].ticket] == Listed && l.q.list[i].ticket !in l.q.invoked
    ensures forall a <- l.roles | Carries(l.roles[a]).Some? ::
              l.roles[a].ticket in place && place[l.roles[a].ticket] == Carried(a)
              && (l.roles[a].ticket in l.q.invoked <==> l.roles[a].Runs?)
  {
  }

  lemma AppendKeepsTickets(l: Ledger, a: ActorId, place: map<nat, Place>)
    requires TicketInv(l, place) && Can(l, a, Append)
    ensures TicketInv(ApplyCaller(l, a, Append), place[l.q.nextTicket := Listed])
  {
    TicketFacts(l, place);
    AppendPlaced(l.q.list, place, Link(l.roles[a].w, l.q.nextTicket));
    hide TicketInv, ListPlaced;
    MoveTicket(l, ApplyCaller(l, a, Append), a, l.q.nextTicket, place, Listed);
  }

  lemma UnlinkKeepsTickets(l: Ledger, a: ActorId, i: nat, place: map<nat, Place>)
    requires TicketInv(l, place) && Can(l, a, Unlink(i))
    ensures TicketInv(ApplyCaller(l, a, Unlink(i)), place[l.q.list[i].ticket := Done])
  {
    TicketFacts(l, place);
    UnlinkPlaced(l.q.list, place, i, Done);
    hide TicketInv, ListPlaced;
    MoveTicket(l, ApplyCaller(l, a, Unlink(i)), a, l.q.list[i].ticket, place, Done);
  }

  lemma PopKeepsTickets(l: Ledger, a: ActorId, place: map<nat, Place>)
    requires TicketInv(l, place) && Can(l, a, Pop)
    ensures TicketInv(ApplyWorker(l, a, Pop), place[l.q.list[0].ticket := Carried(a)])
  {
    TicketFacts(l, place);
    PopPlaced(l.q.list, place, Carried(a));
    var e := l.q.list[0];
    assert e.ticket in place && place[e.ticket] == Listed && e.ticket !in l.q.invoked;
    hide TicketInv, ListPlaced, ApplyTimer, ApplyCaller;
    MoveTicket(l, ApplyWorker(l, a, Pop), a, e.ticket, place, Carried(a));
  }

  lemma InvokeKeepsTickets(l: Ledger, a: ActorId, place: map<nat, Place>)
    requires TicketInv(l, place) && Can(l, a, Invoke)
    ensures TicketInv(ApplyWorker(l, a, Invoke), place)
  {
    hide ListPlaced;
  }

  lemma ReturnKeepsTickets(l: Ledger, a: ActorId, place: map<nat, Place>)
    requires TicketInv(l, place) && Can(l, a, Return)
    ensures TicketInv(ApplyWorker(l, a, Return), place[l.roles[a].ticket := Done])
  {
    TicketFacts(l, place);
    var k := l.roles[a].ticket;
    assert Carries(l.roles[a]) == Some(k);
    CarriedPlaced(l.q.list, place, k, Done);
    hide TicketInv, ListPlaced;
    MoveTicket(l, ApplyWorker(l, a, Return), a, k, place, Done);
  }

  lemma ApplyKeepsTickets(l: Ledger, a: ActorId, m: Move, place: map<nat, Place>) returns (place': map<nat, Place>)
    requires TicketInv(l, place) && Can(l, a, m)
    ensures TicketInv(Apply(l, a, m), place')
  {
    hide TicketInv, ApplyWorker, ApplyCaller, ApplyTimer;
    place' := place;
    if m.Append? {
      place' := place[l.q.nextTicket := Listed];
      AppendKeepsTickets(l, a, place);
    } else if m.Unlink? {
      place' := place[l.q.list[m.i].ticket := Done];
      UnlinkKeepsTickets(l, a, m.i, place);
    } else if m.Pop? {
      place' := place[l.q.list[0].ticket := Carried(a)];
      PopKeepsTickets(l, a, place);
    } else if m.Invoke? {
      InvokeKeepsTickets(l, a, place);
    } else if m.Return? {
      place' := place[l.roles[a].ticket := Done];
      ReturnKeepsTickets(l, a, place);
    } else {
      OtherKeepsTickets(l, a, m, place);
    }
  }

  lemma OtherKeepsTickets(l: Ledger, a: ActorId, m: Move, place: map<nat, Place>)
    requires TicketInv(l, place) && Can(l, a, m)
    requires !m.Append? && !m.Unlink? && !m.Pop? && !m.Invoke? && !m.Return?
    ensures TicketInv(Apply(l, a, m), place)
  {
    hide TicketInv;
    if m.Handover? {
      var l1 := Become(l, a, Free);
      QuietKeepsTickets(l, l1, a, place);
      QuietKeepsTickets(l1, Apply(l, a, m), m.to, place);
    } else if m.Stay? || m.Refuse? || m.Miss? || m.Name? || m.Settle? {
      QuietTickets(l, Apply(l, a, m), place);
    } else {
      QuietKeepsTickets(l, Apply(l, a, m), a, place);
    }
  }

  lemma QuietTickets(l: Ledger, l': Ledger, place: map<nat, Place>)
    requires TicketInv(l, place) && l'.roles == l.roles
    requires l'.q.list == l.q.list && l'.q.nextTicket == l.q.nextTicket && l'.q.outcomes == l.q.outcomes && l'.q.invoked == l.q.invoked
    ensures TicketInv(l', place)
  {
  }

  /** What has happened to a link is never changed. */
  lemma OutcomesKept(l: Ledger, a: ActorId, m: Move, place: map<nat, Place>, k: nat)
    requires TicketInv(l, place) && Can(l, a, m) && k in l.q.outcomes
    ensures var q := Apply(l, a, m).q; k in q.outcomes && q.outcomes[k] == l.q.outcomes[k]
  {
    assert place[k] == Done;
    if m.Return? {
      assert Carries(l.roles[a]) == Some(l.roles[a].ticket);
    }
    hide RolesPlaced, InvokedPlaced;
  }

  // ----- the counter

  /** `active` is the number of workers between their pop and their last critical section. */
  ghost predicate CountInv(l: Ledger) {
    l.q.active == |Section(l.roles)| && |Crew(l.roles)| < WORD
  }

  lemma SectionUpdate(roles: map<ActorId, Role>, a: ActorId, r: Role)
    requires a in roles
    ensures Section(roles[a := r]) == if InSection(r) then Section(roles) + {a} else Section(roles) - {a}
    ensures Crew(roles[a := r]) == if IsCrew(r) then Crew(roles) + {a} else Crew(roles) - {a}
    ensures a in Section(roles) <==> InSection(roles[a])
    ensures a in Crew(roles) <==> IsCrew(roles[a])
  {
  }

  lemma SameSection(roles: map<ActorId, Role>, a: ActorId, r: Role)
    requires a in roles && InSection(r) == InSection(roles[a]) && IsCrew(r) == IsCrew(roles[a])
    ensures Section(roles[a := r]) == Section(roles) && Crew(roles[a := r]) == Crew(roles)
  {
  }

  lemma SectionWithinCrew(roles: map<ActorId, Role>, a: ActorId)
    requires a in roles && roles[a].Looks?
    ensures |Section(roles)| < |Crew(roles)|
  {
    assert Section(roles) <= Crew(roles) - {a};
    SubsetSize(Section(roles), Crew(roles) - {a});
  }

  lemma SubsetSize(x: set<ActorId>, y: set<ActorId>)
    requires x <= y
    ensures |x| <= |y|
  {
    assert y == x + (y - x);
  }

  lemma CallerKeepsCount(l: Ledger, a: ActorId, m: Move)
    requires CountInv(l) && Can(l, a, m) && !IsWorkerMove(m) && !IsTimerMove(m)
    ensures CountInv(ApplyCaller(l, a, m)) && Crew(ApplyCaller(l, a, m).roles) == Crew(l.roles)
  {
    hide Section, Crew;
    SectionUpdate(l.roles, a, ApplyCaller(l, a, m).roles[a]);
  }

  lemma TimerKeepsCount(l: Ledger, a: ActorId, m: Move)
    requires CountInv(l) && Can(l, a, m) && IsTimerMove(m)
    ensures CountInv(ApplyTimer(l, a, m)) && Crew(ApplyTimer(l, a, m).roles) == Crew(l.roles)
  {
    hide Section, Crew;
    if m.Handover? {
      SameSection(l.roles, a, Free);
      SameSection(l.roles[a := Free], m.to, l.roles[a]);
    } else if m.Arm? {
      SameSection(l.roles, a, Arms(m.w));
    } else if m.Drop? || m.Expire? {
      SameSection(l.roles, a, Free);
    }
  }

  lemma PopKeepsCount(l: Ledger, a: ActorId, m: Move)
    requires CountInv(l) && Can(l, a, m) && m.Pop?
    ensures CountInv(ApplyWorker(l, a, m)) && Crew(ApplyWorker(l, a, m).roles) == Crew(l.roles)
  {
    hide Section, Crew;
    SectionUpdate(l.roles, a, ApplyWorker(l, a, m).roles[a]);
    SectionWithinCrew(l.roles, a);
  }

  lemma FinishKeepsCount(l: Ledger, a: ActorId, m: Move)
    requires CountInv(l) && Can(l, a, m) && m.Finish?
    ensures CountInv(ApplyWorker(l, a, m)) && Crew(ApplyWorker(l, a, m).roles) == Crew(l.roles)
  {
    hide Section, Crew;
    SectionUpdate(l.roles, a, ApplyWorker(l, a, m).roles[a]);
  }

  lemma WorkerKeepsCount(l: Ledger, a: ActorId, m: Move)
    requires CountInv(l) && Can(l, a, m) && IsWorkerMove(m)
    ensures CountInv(ApplyWorker(l, a, m)) && Crew(ApplyWorker(l, a, m).roles) == Crew(l.roles)
  {
    if m.Pop? {
      hide CountInv, ApplyWorker, Can;
      PopKeepsCount(l, a, m);
    } else if m.Finish? {
      hide CountInv, ApplyWorker, Can;
      FinishKeepsCount(l, a, m);
    } else {
      hide Section, Crew;
      if !m.Settle? { SameSection(l.roles, a, ApplyWorker(l, a, m).roles[a]); }
    }
  }

  lemma ApplyKeepsCount(l: Ledger, a: ActorId, m: Move)
    requires CountInv(l) && Can(l, a, m)
    ensures CountInv(Apply(l, a, m)) && Crew(Apply(l, a, m).roles) == Crew(l.roles)
  {
    hide CountInv, Crew, ApplyWorker, ApplyTimer, ApplyCaller;
    if IsWorkerMove(m) {
      WorkerKeepsCount(l, a, m);
    } else if IsTimerMove(m) {
      TimerKeepsCount(l, a, m);
    } else {
      CallerKeepsCount(l, a, m);
    }
  }
}
