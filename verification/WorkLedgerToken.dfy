/** Every move keeps QUEUED a single token. */
module WorkLedgerToken {
  import opened Basics
  import opened WorkqueueProtocol
  import opened WorkLedger

  /** A move of `a` that touches at most the word of `w` and sends its token to `owner`, the list following. */
  lemma MoveToken(l: Ledger, l': Ledger, a: ActorId, w: WorkId, own: map<WorkId, Owner>, owner: Owner)
    requires TokenInv(l, own) && a in l.roles && w in l.slots && w in l'.slots && a in l'.roles
    requires l'.slots == l.slots[w := l'.slots[w]] && l'.roles == l.roles[a := l'.roles[a]] && l'.delayed == l.delayed
    requires Holds(l.roles[a]) == if own[w] == Held(a) then Some(w) else None
    requires Holds(l'.roles[a]) == if owner == Held(a) then Some(w) else None
    requires owner.Held? ==> owner == Held(a)
    requires own[w].Held? ==> own[w] == Held(a)
    requires l'.slots[w].state.queued <==> owner != Nobody
    requires l'.roles[a].Arms? ==> l'.slots[w].state == QUEUED && w in l.delayed
    requires ItemsOwned(l'.q.list, own[w := owner])
    requires ListNamed(l'.q.list, l'.slots)
    ensures TokenInv(l', own[w := owner])
  {
    hide ItemsOwned, ListNamed;
  }

  /** A move that changes neither words nor list and leaves `a` holding what it held. */
  lemma QuietKeepsToken(l: Ledger, l': Ledger, a: ActorId, own: map<WorkId, Owner>)
    requires TokenInv(l, own) && a in l.roles && a in l'.roles
    requires l'.slots == l.slots && l'.q.list == l.q.list && l'.delayed == l.delayed && l'.roles == l.roles[a := l'.roles[a]]
    requires Holds(l'.roles[a]) == Holds(l.roles[a]) && (l'.roles[a].Arms? ==> l.roles[a] == l'.roles[a])
    ensures TokenInv(l', own)
  {
    hide ItemsOwned, SlotsOwned;
  }

  lemma LinkOwned(list: seq<Link>, own: map<WorkId, Owner>, e: Link)
    requires ItemsOwned(list, own) && e.work in own && own[e.work] != InList
    ensures ItemsOwned(list + [e], own[e.work := InList])
  {
    var list', own' := list + [e], own[e.work := InList];
    forall w <- own' | own'[w] == InList ensures exists i :: 0 <= i < |list'| && list'[i].work == w {
      if w == e.work {
        assert list'[|list|].work == w;
      } else {
        var i :| 0 <= i < |list| && list[i].work == w;
        assert list'[i].work == w;
      }
    }
  }

  lemma UnlinkOwned(list: seq<Link>, own: map<WorkId, Owner>, i: nat, owner: Owner)
    requires ItemsOwned(list, own) && i < |list| && owner != InList
    ensures ItemsOwned(list[..i] + list[i + 1..], own[list[i].work := owner])
  {
    var list', own' := list[..i] + list[i + 1..], own[list[i].work := owner];
    forall w <- own' | own'[w] == InList ensures exists j :: 0 <= j < |list'| && list'[j].work == w {
      var j :| 0 <= j < |list| && list[j].work == w;
      assert list'[if j < i then j else j - 1].work == w;
    }
  }

  lemma PopOwned(list: seq<Link>, own: map<WorkId, Owner>, owner: Owner)
    requires ItemsOwned(list, own) && list != [] && owner != InList
    ensures ItemsOwned(list[1..], own[list[0].work := owner])
  {
    UnlinkOwned(list, own, 0, owner);
    assert list[..0] + list[1..] == list[1..];
  }

  lemma PopNamed(list: seq<Link>, slots: map<WorkId, Slot>)
    requires ListNamed(list, slots) && list != []
    ensures ListNamed(list[1..], slots)
  {
  }

  /** What the invariant says about one holder, one listed item and one free item. */
  lemma TokenFacts(l: Ledger, own: map<WorkId, Owner>)
    requires TokenInv(l, own)
    ensures own.Keys == l.slots.Keys && ItemsOwned(l.q.list, own) && ListNamed(l.q.list, l.slots)
    ensures forall a <- l.roles | Holds(l.roles[a]).Some? ::
              l.roles[a].w in own && own[l.roles[a].w] == Held(a) && l.slots[l.roles[a].w].state.queued
    ensures forall i | 0 <= i < |l.q.list| ::
              l.q.list[i].work in own && own[l.q.list[i].work] == InList && l.slots[l.q.list[i].work].state.queued
    ensures forall w <- own :: l.slots[w].state.queued <==> own[w] != Nobody
    ensures forall a <- l.roles | l.roles[a].Arms? :: l.slots[l.roles[a].w].state == QUEUED && l.roles[a].w in l.delayed
  {
  }

  lemma HolderOf(l: Ledger, own: map<WorkId, Owner>, a: ActorId, w: WorkId)
    requires TokenInv(l, own) && w in own && a in l.roles && !(Holds(l.roles[a]) == Some(w))
    ensures own[w] != Held(a)
  {
  }

  lemma AcceptKeepsToken(l: Ledger, a: ActorId, w: WorkId, own: map<WorkId, Owner>)
    requires TokenInv(l, own) && Can(l, a, Accept(w))
    ensures TokenInv(ApplyCaller(l, a, Accept(w)), own[w := Held(a)])
  {
    TokenFacts(l, own);
    hide TokenInv, ItemsOwned;
    FreedOwned(l.q.list, own, w, Held(a));
    MoveToken(l, ApplyCaller(l, a, Accept(w)), a, w, own, Held(a));
  }

  /** The owner of an unlisted item may change to any other party. */
  lemma FreedOwned(list: seq<Link>, own: map<WorkId, Owner>, w: WorkId, owner: Owner)
    requires ItemsOwned(list, own) && w in own && own[w] != InList && owner != InList
    ensures ItemsOwned(list, own[w := owner])
  {
  }

  lemma AppendKeepsToken(l: Ledger, a: ActorId, own: map<WorkId, Owner>)
    requires TokenInv(l, own) && Can(l, a, Append)
    ensures TokenInv(ApplyCaller(l, a, Append), own[l.roles[a].w := InList])
  {
    TokenFacts(l, own);
    hide TokenInv, ItemsOwned;
    var w := l.roles[a].w;
    LinkOwned(l.q.list, own, Link(w, l.q.nextTicket));
    MoveToken(l, ApplyCaller(l, a, Append), a, w, own, InList);
  }

  lemma UnlinkKeepsToken(l: Ledger, a: ActorId, i: nat, own: map<WorkId, Owner>)
    requires TokenInv(l, own) && Can(l, a, Unlink(i))
    ensures TokenInv(ApplyCaller(l, a, Unlink(i)), own[l.q.list[i].work := Held(a)])
  {
    TokenFacts(l, own);
    var w := l.q.list[i].work;
    UnlinkOwned(l.q.list, own, i, Held(a));
    UnlinkNamed(l.q.list, l.slots, own, i, Slot(l.slots[w].state, false));
    hide TokenInv, ItemsOwned, ListNamed;
    MoveToken(l, ApplyCaller(l, a, Unlink(i)), a, w, own, Held(a));
  }

  lemma UnlinkNamed(list: seq<Link>, slots: map<WorkId, Slot>, own: map<WorkId, Owner>, i: nat, slot: Slot)
    requires ListNamed(list, slots) && ItemsOwned(list, own) && i < |list|
    ensures ListNamed(list[..i] + list[i + 1..], slots[list[i].work := slot])
  {
  }

  lemma PopKeepsToken(l: Ledger, a: ActorId, own: map<WorkId, Owner>)
    requires TokenInv(l, own) && Can(l, a, Pop)
    ensures TokenInv(ApplyWorker(l, a, Pop), own[l.q.list[0].work := Held(a)])
  {
    TokenFacts(l, own);
    var w := l.q.list[0].work;
    PopOwned(l.q.list, own, Held(a));
    PopNamed(l.q.list, l.slots);
    hide TokenInv, ItemsOwned, ListNamed;
    MoveToken(l, ApplyWorker(l, a, Pop), a, w, own, Held(a));
  }

  lemma ClearKeepsToken(l: Ledger, a: ActorId, own: map<WorkId, Owner>)
    requires TokenInv(l, own) && Can(l, a, Clear)
    ensures TokenInv(ApplyCaller(l, a, Clear), own[l.roles[a].w := Nobody])
  {
    TokenFacts(l, own);
    hide TokenInv, ItemsOwned;
    FreedOwned(l.q.list, own, l.roles[a].w, Nobody);
    MoveToken(l, ApplyCaller(l, a, Clear), a, l.roles[a].w, own, Nobody);
  }

  lemma InvokeKeepsToken(l: Ledger, a: ActorId, own: map<WorkId, Owner>)
    requires TokenInv(l, own) && Can(l, a, Invoke)
    ensures TokenInv(ApplyWorker(l, a, Invoke), own[l.roles[a].w := Nobody])
  {
    TokenFacts(l, own);
    hide TokenInv, ItemsOwned;
    FreedOwned(l.q.list, own, l.roles[a].w, Nobody);
    MoveToken(l, ApplyWorker(l, a, Invoke), a, l.roles[a].w, own, Nobody);
  }

  lemma ArmKeepsToken(l: Ledger, a: ActorId, w: WorkId, own: map<WorkId, Owner>)
    requires TokenInv(l, own) && Can(l, a, Arm(w))
    ensures TokenInv(ApplyTimer(l, a, Arm(w)), own[w := Held(a)])
  {
    TokenFacts(l, own);
    hide TokenInv, ItemsOwned;
    FreedOwned(l.q.list, own, w, Held(a));
    MoveToken(l, ApplyTimer(l, a, Arm(w)), a, w, own, Held(a));
  }

  lemma GiveBackKeepsToken(l: Ledger, a: ActorId, m: Move, own: map<WorkId, Owner>)
    requires TokenInv(l, own) && (m.Drop? || m.Expire?) && Can(l, a, m)
    ensures TokenInv(ApplyTimer(l, a, m), own[l.roles[a].w := Nobody])
  {
    TokenFacts(l, own);
    hide TokenInv, ItemsOwned;
    FreedOwned(l.q.list, own, l.roles[a].w, Nobody);
    MoveToken(l, ApplyTimer(l, a, m), a, l.roles[a].w, own, Nobody);
  }

  lemma HandoverKeepsToken(l: Ledger, a: ActorId, to: ActorId, own: map<WorkId, Owner>)
    requires TokenInv(l, own) && Can(l, a, Handover(to))
    ensures TokenInv(ApplyTimer(l, a, Handover(to)), own[l.roles[a].w := Held(to)])
  {
    TokenFacts(l, own);
    FreedOwned(l.q.list, own, l.roles[a].w, Held(to));
    hide ItemsOwned, ListNamed;
  }

  lemma SettleKeepsToken(l: Ledger, a: ActorId, own: map<WorkId, Owner>)
    requires TokenInv(l, own) && Can(l, a, Settle)
    ensures TokenInv(ApplyWorker(l, a, Settle), own)
  {
    TokenFacts(l, own);
    var w := l.roles[a].w;
    var word := l.slots[w].state;
    if word.running {
      RunningIsNotArmed(l, w, own);
      var l' := ApplyWorker(l, a, Settle);
      assert SlotsOwned(l'.slots, own) && ArmsExact(l');
    } else {
      assert ApplyWorker(l, a, Settle).slots == l.slots;
    }
    hide ItemsOwned, RolesOwn;
  }

  lemma RunningIsNotArmed(l: Ledger, w: WorkId, own: map<WorkId, Owner>)
    requires TokenInv(l, own) && w in l.slots && l.slots[w].state.running
    ensures forall a <- l.roles | l.roles[a].Arms? :: l.roles[a].w != w
  {
  }

  lemma FinishKeepsToken(l: Ledger, a: ActorId, own: map<WorkId, Owner>)
    requires TokenInv(l, own) && Can(l, a, Finish)
    ensures TokenInv(ApplyWorker(l, a, Finish), own)
  {
    TokenFacts(l, own);
    var w := l.roles[a].w;
    HolderOf(l, own, a, w);
    assert own[w := own[w]] == own;
    var l' := ApplyWorker(l, a, Finish);
    assert ListNamed(l'.q.list, l'.slots);
    hide ItemsOwned, ListNamed, RolesOwn;
    assert SlotsOwned(l'.slots, own) && ArmsExact(l');
    QuietRoles(l.roles, own, a, Looks);
  }

  lemma QuietRoles(roles: map<ActorId, Role>, own: map<WorkId, Owner>, a: ActorId, r: Role)
    requires RolesOwn(roles, own) && a in roles && Holds(r) == None == Holds(roles[a])
    ensures RolesOwn(roles[a := r], own)
  {
  }

  lemma NameKeepsToken(l: Ledger, a: ActorId, own: map<WorkId, Owner>)
    requires TokenInv(l, own) && Can(l, a, Name)
    ensures TokenInv(ApplyTimer(l, a, Name), own)
  {
    TokenFacts(l, own);
    assert own[l.roles[a].w := own[l.roles[a].w]] == own;
    hide TokenInv, ItemsOwned;
    MoveToken(l, ApplyTimer(l, a, Name), a, l.roles[a].w, own, own[l.roles[a].w]);
  }

  lemma CallerKeepsToken(l: Ledger, a: ActorId, m: Move, own: map<WorkId, Owner>) returns (own': map<WorkId, Owner>)
    requires TokenInv(l, own) && Can(l, a, m) && !IsTimerMove(m) && !IsWorkerMove(m)
    ensures TokenInv(ApplyCaller(l, a, m), own')
  {
    hide TokenInv;
    own' := own;
    if m.Accept? {
      own' := own[m.w := Held(a)];
      AcceptKeepsToken(l, a, m.w, own);
    } else if m.Append? {
      own' := own[l.roles[a].w := InList];
      AppendKeepsToken(l, a, own);
    } else if m.Unlink? {
      own' := own[l.q.list[m.i].work := Held(a)];
      UnlinkKeepsToken(l, a, m.i, own);
    } else if m.Clear? {
      own' := own[l.roles[a].w := Nobody];
      ClearKeepsToken(l, a, own);
    } else {
      QuietKeepsToken(l, ApplyCaller(l, a, m), a, own);
    }
  }

  lemma TimerKeepsToken(l: Ledger, a: ActorId, m: Move, own: map<WorkId, Owner>) returns (own': map<WorkId, Owner>)
    requires TokenInv(l, own) && Can(l, a, m) && IsTimerMove(m)
    ensures TokenInv(ApplyTimer(l, a, m), own')
  {
    hide TokenInv, ApplyTimer;
    if m.Arm? {
      own' := own[m.w := Held(a)];
      ArmKeepsToken(l, a, m.w, own);
    } else if m.Name? {
      own' := own;
      NameKeepsToken(l, a, own);
    } else if m.Handover? {
      own' := own[l.roles[a].w := Held(m.to)];
      HandoverKeepsToken(l, a, m.to, own);
    } else {
      own' := own[l.roles[a].w := Nobody];
      GiveBackKeepsToken(l, a, m, own);
    }
  }

  lemma WorkerKeepsToken(l: Ledger, a: ActorId, m: Move, own: map<WorkId, Owner>) returns (own': map<WorkId, Owner>)
    requires TokenInv(l, own) && Can(l, a, m) && IsWorkerMove(m)
    ensures TokenInv(ApplyWorker(l, a, m), own')
  {
    hide TokenInv;
    own' := own;
    if m.Pop? {
      own' := own[l.q.list[0].work := Held(a)];
      PopKeepsToken(l, a, own);
    } else if m.Invoke? {
      own' := own[l.roles[a].w := Nobody];
      InvokeKeepsToken(l, a, own);
    } else if m.Settle? {
      SettleKeepsToken(l, a, own);
    } else if m.Finish? {
      FinishKeepsToken(l, a, own);
    } else {
      QuietKeepsToken(l, ApplyWorker(l, a, m), a, own);
    }
  }

  lemma ApplyKeepsToken(l: Ledger, a: ActorId, m: Move, own: map<WorkId, Owner>) returns (own': map<WorkId, Owner>)
    requires TokenInv(l, own) && Can(l, a, m)
    ensures TokenInv(Apply(l, a, m), own')
  {
    hide TokenInv, ApplyWorker, ApplyTimer, ApplyCaller;
    if IsWorkerMove(m) {
      own' := WorkerKeepsToken(l, a, m, own);
    } else if IsTimerMove(m) {
      own' := TimerKeepsToken(l, a, m, own);
    } else {
      own' := CallerKeepsToken(l, a, m, own);
    }
  }
}
