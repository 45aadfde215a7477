/**
 * The simulated multi-material unit of the web back end (backend/mmu/controller.py), with
 * its status records (backend/mmu/model.py). A controller holds one status; each simulated
 * operation moves it through a transient state and back to idle, flagging filament on the
 * slots it touches.
 */
module MmuController {
  import opened Wrappers
  import opened Decimal

  datatype MmuState = Idle | Loading | Unloading | Toolchange | Error | Recovering

  datatype Slot = Slot(index: int, color: string, hasFilament: bool)

  datatype MmuStatus = MmuStatus(
    state: MmuState,
    activeSlot: Option<int>,
    lastError: Option<string>,
    slots: seq<Slot>,
    simulation: bool)

  /** The configuration fields the controller reads. */
  datatype MmuConfig = MmuConfig(driveMotors: int, colors: seq<string>)

  /**
   * The keyword arguments of one `_update` call: `None` leaves a field as it is,
   * `Some(v)` sets it to `v`.
   */
  datatype StatusUpdate = StatusUpdate(
    state: Option<MmuState>,
    activeSlot: Option<Option<int>>,
    lastError: Option<Option<string>>)

  function SetState(st: MmuState): StatusUpdate {
    StatusUpdate(Some(st), None, None)
  }

  /** `_update(**kwargs)`: exactly the named fields change. */
  function ApplyUpdate(s: MmuStatus, u: StatusUpdate): (r: MmuStatus)
    ensures r.slots == s.slots && r.simulation == s.simulation
    ensures r.state == (if u.state.Some? then u.state.value else s.state)
    ensures r.activeSlot == (if u.activeSlot.Some? then u.activeSlot.value else s.activeSlot)
    ensures r.lastError == (if u.lastError.Some? then u.lastError.value else s.lastError)
  {
    s.(state := if u.state.Some? then u.state.value else s.state)
     .(activeSlot := if u.activeSlot.Some? then u.activeSlot.value else s.activeSlot)
     .(lastError := if u.lastError.Some? then u.lastError.value else s.lastError)
  }

  /** The label of slot `i` (0-based): its configured color, or "Slot i+1" past the end of the list. */
  function SlotColor(colors: seq<string>, i: nat): string {
    if i < |colors| then colors[i] else "Slot " + NatToString(i + 1)
  }

  /** The slots built by the constructor: one per drive motor, none of them loaded. */
  function InitialSlots(driveMotors: int, colors: seq<string>): (r: seq<Slot>)
    ensures |r| == if driveMotors < 0 then 0 else driveMotors
    ensures forall i :: 0 <= i < |r| ==> r[i] == Slot(i, SlotColor(colors, i), false)
  {
    if driveMotors <= 0 then [] else seq(driveMotors, i requires 0 <= i => Slot(i, SlotColor(colors, i), false))
  }

  /** Slot `k` carries index `k`, as the constructor lays them out. */
  predicate Indexed(slots: seq<Slot>) {
    forall k :: 0 <= k < |slots| ==> slots[k].index == k
  }

  /** The same slots, apart from the filament flags. */
  predicate SameSlots(a: seq<Slot>, b: seq<Slot>) {
    |a| == |b| && forall k :: 0 <= k < |a| ==> a[k].index == b[k].index && a[k].color == b[k].color
  }

  /** The loop `for s in slots: if s.index == i: s.has_filament = v`, as its result. */
  function MarkFilament(slots: seq<Slot>, i: int, v: bool): (r: seq<Slot>)
    ensures SameSlots(slots, r)
    ensures forall k :: 0 <= k < |r| ==> r[k].hasFilament == if slots[k].index == i then v else slots[k].hasFilament
  {
    seq(|slots|, k requires 0 <= k < |slots| => if slots[k].index == i then slots[k].(hasFilament := v) else slots[k])
  }

  /** Whether `simulate_load_slot` accepts the slot number: a position in the slot list. */
  predicate InRange(s: MmuStatus, i: int) {
    0 <= i < |s.slots|
  }

  /** The status `simulate_load_slot(i)` leaves behind. */
  function LoadSlot(s: MmuStatus, i: int): (r: MmuStatus)
    ensures SameSlots(s.slots, r.slots) && r.simulation == s.simulation
    ensures !InRange(s, i) ==>
              r == s.(state := Error, lastError := Some("Invalid slot " + IntToString(i)))
    ensures InRange(s, i) ==>
              && r.state == Idle && r.activeSlot == Some(i) && r.lastError == s.lastError
              && forall k :: 0 <= k < |r.slots| ==>
                   r.slots[k].hasFilament == (s.slots[k].index == i || s.slots[k].hasFilament)
  {
    if !InRange(s, i) then ApplyUpdate(s, StatusUpdate(Some(Error), None, Some(Some("Invalid slot " + IntToString(i)))))
    else
      var loading := ApplyUpdate(s, StatusUpdate(Some(Loading), Some(Some(i)), None));
      ApplyUpdate(loading.(slots := MarkFilament(loading.slots, i, true)), SetState(Idle))
  }

  /** The status `simulate_unload()` leaves behind. */
  function Unload(s: MmuStatus): (r: MmuStatus)
    ensures SameSlots(s.slots, r.slots) && r.simulation == s.simulation
    ensures s.activeSlot.None? ==> r == s.(state := Error, lastError := Some("No active slot to unload"))
    ensures s.activeSlot.Some? ==>
              && r.state == Idle && r.activeSlot.None? && r.lastError == s.lastError
              && forall k :: 0 <= k < |r.slots| ==>
                   r.slots[k].hasFilament == (s.slots[k].index != s.activeSlot.value && s.slots[k].hasFilament)
  {
    if s.activeSlot.None? then ApplyUpdate(s, StatusUpdate(Some(Error), None, Some(Some("No active slot to unload"))))
    else
      var i := s.activeSlot.value;
      var unloading := ApplyUpdate(s, SetState(Unloading));
      ApplyUpdate(unloading.(slots := MarkFilament(unloading.slots, i, false)), StatusUpdate(Some(Idle), Some(None), None))
  }

  /** The status `simulate_recover()` leaves behind. */
  function Recover(s: MmuStatus): (r: MmuStatus)
    ensures r == s.(state := Idle, lastError := None)
  {
    ApplyUpdate(ApplyUpdate(s, StatusUpdate(Some(Recovering), None, Some(None))), SetState(Idle))
  }

  /** In a laid-out slot list, loading slot `i` flags exactly slot `i` and leaves the others alone. */
  lemma LoadFlagsOneSlot(s: MmuStatus, i: int)
    requires Indexed(s.slots) && InRange(s, i)
    ensures var r := LoadSlot(s, i);
            && r.slots[i] == s.slots[i].(hasFilament := true)
            && forall k :: 0 <= k < |s.slots| && k != i ==> r.slots[k] == s.slots[k]
  {
  }

  /** Loading a slot and then unloading returns every flag to its value before the load, except the loaded slot's, which is cleared. */
  lemma LoadThenUnload(s: MmuStatus, i: int)
    requires Indexed(s.slots) && InRange(s, i)
    ensures var r := Unload(LoadSlot(s, i));
            && r.state == Idle && r.activeSlot.None? && r.lastError == s.lastError
            && r.slots == s.slots[i := s.slots[i].(hasFilament := false)]
  {
    var r := Unload(LoadSlot(s, i));
    assert |r.slots| == |s.slots|;
    forall k | 0 <= k < |s.slots|
      ensures r.slots[k] == s.slots[i := s.slots[i].(hasFilament := false)][k]
    {
    }
  }

  /**
   * A tool change on a unit with nothing loaded: the unload reports its error, the load
   * still runs, and the error message survives the successful load.
   */
  lemma ToolchangeFromEmpty(s: MmuStatus, i: int)
    requires s.activeSlot.None? && InRange(s, i)
    ensures var r := LoadSlot(Unload(s), i);
            r.state == Idle && r.activeSlot == Some(i) && r.lastError == Some("No active slot to unload")
  {
  }

  /** The controller: its configuration and its current status. */
  class Controller {
    const config: MmuConfig
    var status: MmuStatus

    /** Slots keep the indices the constructor gave them, and the active slot, if any, names one of them. */
    predicate Valid()
      reads this
    {
      Indexed(status.slots) && (status.activeSlot.Some? ==> InRange(status, status.activeSlot.value))
    }

    /** `MMUController(config)`: idle, nothing active, no error, simulated. */
    constructor (config: MmuConfig)
      ensures this.config == config
      ensures status == MmuStatus(Idle, None, None, InitialSlots(config.driveMotors, config.colors), true)
      ensures Valid()
    {
      this.config := config;
      status := MmuStatus(Idle, None, None, InitialSlots(config.driveMotors, config.colors), true);
    }

    /** `_update`. */
    method Update(u: StatusUpdate)
      modifies this
      ensures status == ApplyUpdate(old(status), u)
    {
      if u.state.Some? {
        status := status.(state := u.state.value);
      }
      if u.activeSlot.Some? {
        status := status.(activeSlot := u.activeSlot.value);
      }
      if u.lastError.Some? {
        status := status.(lastError := u.lastError.value);
      }
    }

    /** `get_status`: a copy of the current status. */
    method GetStatus() returns (s: MmuStatus)
      ensures s == status
    {
      s := status;
    }

    /** The in-place loop over the slot objects. */
    method SetFilament(i: int, v: bool)
      modifies this
      ensures status == old(status).(slots := MarkFilament(old(status.slots), i, v))
    {
      var slots := status.slots;
      for k := 0 to |slots|
        invariant |slots| == |status.slots|
        invariant forall j :: 0 <= j < k ==> slots[j] == MarkFilament(status.slots, i, v)[j]
        invariant forall j :: k <= j < |slots| ==> slots[j] == status.slots[j]
      {
        if slots[k].index == i {
          slots := slots[k := slots[k].(hasFilament := v)];
        }
      }
      status := status.(slots := slots);
    }

    /** `simulate_load_slot`. */
    method SimulateLoadSlot(i: int)
      modifies this
      ensures status == LoadSlot(old(status), i)
      ensures old(Valid()) ==> Valid()
    {
      if i < 0 || i >= |status.slots| {
        Update(StatusUpdate(Some(Error), None, Some(Some("Invalid slot " + IntToString(i)))));
        return;
      }
      Update(StatusUpdate(Some(Loading), Some(Some(i)), None));
      SetFilament(i, true);
      Update(SetState(Idle));
    }

    /** `simulate_unload`. */
    method SimulateUnload()
      modifies this
      ensures status == Unload(old(status))
      ensures old(Valid()) ==> Valid()
    {
      if status.activeSlot.None? {
        Update(StatusUpdate(Some(Error), None, Some(Some("No active slot to unload"))));
        return;
      }
      var i := status.activeSlot.value;
      Update(SetState(Unloading));
      SetFilament(i, false);
      Update(StatusUpdate(Some(Idle), Some(None), None));
    }

    /** `simulate_toolchange`: an unload, then a load, whatever the unload did. */
    method SimulateToolchange(i: int)
      modifies this
      ensures status == LoadSlot(Unload(old(status)), i)
      ensures old(Valid()) ==> Valid()
    {
      SimulateUnload();
      SimulateLoadSlot(i);
    }

    /** `simulate_recover`. */
    method SimulateRecover()
      modifies this
      ensures status == Recover(old(status))
      ensures old(Valid()) ==> Valid()
    {
      Update(StatusUpdate(Some(Recovering), None, Some(None)));
      Update(SetState(Idle));
    }
  }
}
