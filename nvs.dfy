/** The flash key/value namespace ("pump-state") in which the firmware keeps
    the record that survives a restart. */
module Nvs {
  import opened PumpConfig

  datatype Option<T> = None | Some(value: T) {
    function GetOr(default: T): T {
      match this
      case Some(v) => v
      case None => default
    }
  }

  /** The five persisted values: delivered and remaining volume, base basal
      rate, last bolus size (all in milli-units) and the empty latch. */
  datatype Record = Record(delivered: int, remaining: int, basalRate: int,
                           lastBolus: int, empty: bool)

  /** The namespace under the keys "deliv", "rem", "basal", "l_bolus" and
      "empty"; a key that was never written is absent. */
  datatype Store = Store(deliv: Option<int>, rem: Option<int>, basal: Option<int>,
                         lBolus: Option<int>, empty: Option<bool>)

  /** A namespace nothing was ever written to. */
  const Blank: Store := Store(None, None, None, None, None)

  /** The values a fresh pump starts from. */
  const Defaults: Record := Record(0, TOTAL_UNITS, 0, 0, false)

  /** loadStateFromNVS: every key is read with its own default. */
  function Load(st: Store): (r: Record)
    ensures st == Blank ==> r == Defaults
    ensures st.deliv.Some? ==> r.delivered == st.deliv.value
    ensures st.deliv.None? ==> r.delivered == Defaults.delivered
    ensures st.rem.Some? ==> r.remaining == st.rem.value
    ensures st.rem.None? ==> r.remaining == Defaults.remaining
    ensures st.basal.Some? ==> r.basalRate == st.basal.value
    ensures st.basal.None? ==> r.basalRate == Defaults.basalRate
    ensures st.lBolus.Some? ==> r.lastBolus == st.lBolus.value
    ensures st.lBolus.None? ==> r.lastBolus == Defaults.lastBolus
    ensures st.empty.Some? ==> r.empty == st.empty.value
    ensures st.empty.None? ==> r.empty == Defaults.empty
  {
    Record(st.deliv.GetOr(0), st.rem.GetOr(TOTAL_UNITS), st.basal.GetOr(0),
           st.lBolus.GetOr(0), st.empty.GetOr(false))
  }

  /** saveStateToNVS: writes all five keys, so that loading afterwards gives
      back exactly the saved record. */
  function Saved(r: Record): (st: Store)
    ensures Load(st) == r
    ensures st.deliv.Some? && st.rem.Some? && st.basal.Some? && st.lBolus.Some? && st.empty.Some?
  {
    Store(Some(r.delivered), Some(r.remaining), Some(r.basalRate), Some(r.lastBolus), Some(r.empty))
  }

  /** Saving what was loaded from a fully written namespace writes it back
      unchanged. */
  lemma SaveLoadFixpoint(st: Store)
    requires st.deliv.Some? && st.rem.Some? && st.basal.Some? && st.lBolus.Some? && st.empty.Some?
    ensures Saved(Load(st)) == st
  {
  }
}
