/** Refreshing a recorded segment: exactly which host transfers follow the tensors of the latest inference. */
module GraphRefresh {
  import opened GraphSpec

  predicate IsHost(op: Op, upload: bool) {
    if upload then op.Upload? else op.Download?
  }

  /** The first host transfer of its name and direction in the segment. */
  predicate Leads(seg: seq<Op>, p: nat, upload: bool) {
    && p < |seg| && IsHost(seg[p], upload)
    && forall q :: 0 <= q < p && IsHost(seg[q], upload) ==> seg[q].name != seg[p].name
  }

  /** A transfer whose name is already taken: its recorded node is never refreshed. */
  predicate Stale(seg: seq<Op>, p: nat) {
    p < |seg| && ((seg[p].Upload? && !Leads(seg, p, true)) || (seg[p].Download? && !Leads(seg, p, false)))
  }

  predicate Recordable(seg: seq<Op>) {
    forall k :: 0 <= k < |seg| ==> CompatOf(seg[k]) == Full
  }

  lemma {:induction false} FullKinds(op: Op)
    ensures CompatOf(op) == Full <==> op.Upload? || op.Download? || op.Kernel?
  {}

  /** The only event of a recordable operation. */
  function EventOf(op: Op, x: Tensors): Event {
    match op
    case Upload(name, dst) => Uploaded(dst, x.input(name))
    case Download(name, src) => Downloaded(src, x.output(name))
    case Kernel(id) => Ran(id)
    case Eager(id) => Called(id)
    case Loop(id, _, _, _, _, _) => First(id)
  }

  /** The slots record leading transfers among the first `n` operations, with the hosts of `x` ... */
  predicate SlotsValid(slots: seq<Slot>, seg: seq<Op>, x: Tensors, n: nat, upload: bool) {
    forall s :: 0 <= s < |slots| ==>
      && slots[s].index < n && Leads(seg, slots[s].index, upload)
      && slots[s].name == seg[slots[s].index].name && slots[s].host == HostOf(slots[s], upload, x)
  }

  /** ... all of them ... */
  predicate SlotsCover(slots: seq<Slot>, seg: seq<Op>, n: nat, upload: bool) {
    forall p :: 0 <= p < n && Leads(seg, p, upload) ==> exists s :: 0 <= s < |slots| && slots[s].index == p
  }

  /** ... each once. */
  predicate SlotsApart(slots: seq<Slot>) {
    forall s, t :: 0 <= s < t < |slots| ==> slots[s].index != slots[t].index
  }

  predicate SlotsFit(slots: seq<Slot>, seg: seq<Op>, x: Tensors, n: nat, upload: bool) {
    SlotsValid(slots, seg, x, n, upload) && SlotsCover(slots, seg, n, upload) && SlotsApart(slots)
  }

  predicate Named(slots: seq<Slot>, name: string) {
    exists i :: 0 <= i < |slots| && slots[i].name == name
  }

  lemma {:induction false} LeadsIff(slots: seq<Slot>, seg: seq<Op>, x: Tensors, n: nat, upload: bool)
    requires n < |seg| && IsHost(seg[n], upload)
    requires SlotsValid(slots, seg, x, n, upload) && SlotsCover(slots, seg, n, upload)
    ensures Leads(seg, n, upload) <==> !Named(slots, seg[n].name)
  {
    if s :| 0 <= s < |slots| && slots[s].name == seg[n].name {
      assert IsHost(seg[slots[s].index], upload);
    }
    if q :| 0 <= q < n && IsHost(seg[q], upload) && seg[q].name == seg[n].name {
      var p := LeaderOf(seg, q, upload);
      var s :| 0 <= s < |slots| && slots[s].index == p;
      assert slots[s].name == seg[n].name;
    }
  }

  lemma {:induction false} CoverMore(slots: seq<Slot>, slot: Slot, seg: seq<Op>, n: nat, upload: bool)
    requires SlotsCover(slots, seg, n, upload) && slot.index == n
    ensures SlotsCover(slots + [slot], seg, n + 1, upload)
  {
    hide Leads;
    var more := slots + [slot];
    forall p | 0 <= p < n + 1 && Leads(seg, p, upload) ensures exists s :: 0 <= s < |more| && more[s].index == p {
      if p < n {
        var s :| 0 <= s < |slots| && slots[s].index == p;
        assert more[s].index == p;
      } else {
        assert more[|slots|].index == p;
      }
    }
  }

  lemma {:induction false} CoverSame(slots: seq<Slot>, seg: seq<Op>, n: nat, upload: bool)
    requires SlotsCover(slots, seg, n, upload) && !Leads(seg, n, upload)
    ensures SlotsCover(slots, seg, n + 1, upload)
  {
    hide Leads;
  }

  /** Recording a host transfer under its name, if the name is still free. */
  lemma {:induction false} EmplaceFits(slots: seq<Slot>, slot: Slot, seg: seq<Op>, x: Tensors, n: nat, upload: bool)
    requires n < |seg| && SlotsFit(slots, seg, x, n, upload) && IsHost(seg[n], upload)
    requires slot.name == seg[n].name && slot.index == n && slot.host == HostOf(slot, upload, x)
    ensures SlotsFit(Emplace(slots, slot), seg, x, n + 1, upload)
  {
    hide Leads, SlotsCover;
    LeadsIff(slots, seg, x, n, upload);
    if Named(slots, slot.name) { CoverSame(slots, seg, n, upload); } else { CoverMore(slots, slot, seg, n, upload); }
  }

  lemma {:induction false} SkipFits(slots: seq<Slot>, seg: seq<Op>, x: Tensors, n: nat, upload: bool)
    requires n < |seg| && SlotsFit(slots, seg, x, n, upload) && !IsHost(seg[n], upload)
    ensures SlotsFit(slots, seg, x, n + 1, upload)
  {
    hide SlotsCover;
    assert !Leads(seg, n, upload);
    CoverSame(slots, seg, n, upload);
  }

  lemma {:induction false} LeaderOf(seg: seq<Op>, q: nat, upload: bool) returns (p: nat)
    requires q < |seg| && IsHost(seg[q], upload)
    ensures p <= q && Leads(seg, p, upload) && seg[p].name == seg[q].name
    decreases q
  {
    if Leads(seg, q, upload) {
      p := q;
    } else {
      var r :| 0 <= r < q && IsHost(seg[r], upload) && seg[r].name == seg[q].name;
      p := LeaderOf(seg, r, upload);
    }
  }

  lemma {:induction false} RecordEvents(seg: seq<Op>, x: Tensors, n: nat)
    requires n <= |seg| && Recordable(seg)
    ensures var g := Record(seg, x, n);
      && g.Leaf? && |g.exec| == n && g.kernels == 0
      && (forall p :: 0 <= p < n ==> g.exec[p] == EventOf(seg[p], x))
  {
    hide Emplace, CompatOf;
    if n > 0 {
      RecordEvents(seg, x, n - 1);
      FullKinds(seg[n - 1]);
    }
  }

  lemma {:induction false} NoSlots(seg: seq<Op>, x: Tensors, upload: bool)
    ensures SlotsFit([], seg, x, 0, upload)
  {}

  lemma {:induction false} RecordSlots(seg: seq<Op>, x: Tensors, n: nat)
    requires n <= |seg| && Recordable(seg)
    ensures var g := Record(seg, x, n);
      g.Leaf? && SlotsFit(g.uploads, seg, x, n, true) && SlotsFit(g.downloads, seg, x, n, false)
  {
    hide SlotsFit, Emplace, CompatOf, EagerOp, EventOf, Recordable;
    RecordEvents(seg, x, n);
    if n == 0 {
      NoSlots(seg, x, true);
      NoSlots(seg, x, false);
    } else {
      RecordSlots(seg, x, n - 1);
      RecordEvents(seg, x, n - 1);
      var g := Record(seg, x, n - 1);
      var op := seg[n - 1];
      if op.Upload? {
        EmplaceFits(g.uploads, Slot(op.name, n - 1, x.input(op.name)), seg, x, n - 1, true);
      } else {
        SkipFits(g.uploads, seg, x, n - 1, true);
      }
      if op.Download? {
        EmplaceFits(g.downloads, Slot(op.name, n - 1, x.output(op.name)), seg, x, n - 1, false);
      } else {
        SkipFits(g.downloads, seg, x, n - 1, false);
      }
    }
  }

  // ----- refreshing

  lemma {:induction false} RefreshMiss(exec: seq<Event>, slots: seq<Slot>, up: bool, x: Tensors, n: nat, p: nat)
    requires n <= |slots| && p < |exec|
    requires forall s :: 0 <= s < n ==> slots[s].index != p
    ensures RefreshExec(exec, slots, up, x, n)[p] == exec[p]
  {
    if n > 0 { RefreshMiss(exec, slots, up, x, n - 1, p); }
  }

  lemma {:induction false} RefreshHit(exec: seq<Event>, slots: seq<Slot>, up: bool, x: Tensors, n: nat, s: nat)
    requires s < n <= |slots| && SlotsApart(slots) && slots[s].index < |exec|
    ensures var host := HostOf(slots[s], up, x);
      RefreshExec(exec, slots, up, x, n)[slots[s].index] ==
      if slots[s].host == host then exec[slots[s].index] else WithHost(exec[slots[s].index], host)
  {
    if s == n - 1 {
      RefreshMiss(exec, slots, up, x, n - 1, slots[s].index);
    } else {
      RefreshHit(exec, slots, up, x, n - 1, s);
    }
  }

  /** One direction: the leading transfers move to the new hosts, nothing else changes. */
  lemma {:induction false} RefreshPass(exec: seq<Event>, slots: seq<Slot>, seg: seq<Op>, y: Tensors, z: Tensors,
                                       up: bool, p: nat)
    requires |exec| == |seg| && p < |seg| && SlotsFit(slots, seg, y, |seg|, up)
    requires Leads(seg, p, up) ==> exec[p] == EventOf(seg[p], y)
    ensures RefreshExec(exec, slots, up, z, |slots|)[p] == if Leads(seg, p, up) then EventOf(seg[p], z) else exec[p]
  {
    if Leads(seg, p, up) {
      var s :| 0 <= s < |slots| && slots[s].index == p;
      RefreshHit(exec, slots, up, z, |slots|, s);
    } else {
      RefreshMiss(exec, slots, up, z, |slots|, p);
    }
  }

  lemma {:induction false} RefreshedSlots(slots: seq<Slot>, seg: seq<Op>, y: Tensors, z: Tensors, n: nat, up: bool)
    requires SlotsFit(slots, seg, y, n, up)
    ensures SlotsFit(RefreshSlots(slots, up, z), seg, z, n, up)
  {
    hide Leads;
    var r := RefreshSlots(slots, up, z);
    forall p | 0 <= p < n && Leads(seg, p, up) ensures exists s :: 0 <= s < |r| && r[s].index == p {
      var s :| 0 <= s < |slots| && slots[s].index == p;
      assert r[s].index == p;
    }
  }

  /** What position `p` of a segment replays, recorded with `x` and last refreshed with `y`. */
  function ReplayedAt(seg: seq<Op>, x: Tensors, y: Tensors, p: nat): Event
    requires p < |seg|
  {
    EventOf(seg[p], if Stale(seg, p) then x else y)
  }

  /** A graph recorded for `seg` with the tensors `x`, last refreshed for `y`. */
  predicate Holds(g: Graph, seg: seq<Op>, x: Tensors, y: Tensors) {
    && g.Leaf? && g.kernels == 0 && |g.exec| == |seg|
    && (forall p :: 0 <= p < |seg| ==> g.exec[p] == ReplayedAt(seg, x, y, p))
    && SlotsFit(g.uploads, seg, y, |seg|, true) && SlotsFit(g.downloads, seg, y, |seg|, false)
  }

  lemma {:induction false} RecordHolds(seg: seq<Op>, x: Tensors)
    requires Recordable(seg)
    ensures Holds(Record(seg, x, |seg|), seg, x, x)
  {
    hide SlotsFit, Stale, Record;
    RecordEvents(seg, x, |seg|);
    RecordSlots(seg, x, |seg|);
  }

  /** Refreshing keeps a recorded segment exact, whatever was refreshed before. */
  lemma {:induction false} RefreshHolds(g: Graph, seg: seq<Op>, x: Tensors, y: Tensors, z: Tensors)
    requires Recordable(seg) && Holds(g, seg, x, y)
    ensures Holds(UpdateCapture(g, z), seg, x, z)
  {
    hide SlotsFit, RefreshExec, Recordable, Leads;
    RefreshedSlots(g.uploads, seg, y, z, |seg|, true);
    RefreshedSlots(g.downloads, seg, y, z, |seg|, false);
    var r := UpdateCapture(g, z);
    forall p | 0 <= p < |seg| ensures r.exec[p] == ReplayedAt(seg, x, z, p) { RefreshAt(g, seg, x, y, z, p); }
  }

  lemma {:induction false} RefreshAt(g: Graph, seg: seq<Op>, x: Tensors, y: Tensors, z: Tensors, p: nat)
    requires Recordable(seg) && Holds(g, seg, x, y) && p < |seg|
    ensures UpdateCapture(g, z).exec[p] == ReplayedAt(seg, x, z, p)
  {
    hide SlotsFit, RefreshExec;
    FullKinds(seg[p]);
    var once := RefreshExec(g.exec, g.uploads, true, z, |g.uploads|);
    assert g.exec[p] == ReplayedAt(seg, x, y, p);
    RefreshPass(g.exec, g.uploads, seg, y, z, true, p);
    RefreshPass(once, g.downloads, seg, y, z, false, p);
  }
}
