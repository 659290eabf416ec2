/**
 * The client's `modals` slice: a two-state machine whose state is either
 * `null` (no modal shown) or `{modalType, modalProps}`, with the `showModal`
 * and `hideModal` reducers and the three selectors.
 */
module ModalSlice {
  import opened Wrappers
  import opened Js

  /** `null`, or the object `{modalType, modalProps}`. */
  datatype ModalState = Hidden | Shown(modalType: JsValue, modalProps: JsValue)

  /** The slice's `initialState`. */
  const InitialState: ModalState := Hidden

  /** An action dispatched to the store; `Other` is any action of another slice. */
  datatype Action = ShowModal(payload: JsValue) | HideModal | Other

  /** The slice state as the JavaScript value the store holds. */
  function ToJs(s: ModalState): (v: JsValue)
    ensures s.Hidden? <==> v.Null?
    ensures s.Shown? ==> v.Obj? && v.props.Keys == {"modalType", "modalProps"}
  {
    match s
    case Hidden => Null
    case Shown(t, p) => Obj(map["modalType" := t, "modalProps" := p])
  }

  /**
   * `showModal`: reading the payload's fields throws when the payload is
   * `null` or `undefined`, and the reducer then keeps the current state;
   * otherwise the new state holds the payload's `modalType` and its
   * `modalProps`, with `{}` in place of a falsy `modalProps`.
   */
  function Show(state: ModalState, payload: JsValue): (r: ModalState)
    ensures Nullish(payload) ==> r == state
    ensures !Nullish(payload) ==> r.Shown? && Truthy(r.modalProps)
    ensures !Nullish(payload) ==> r.modalType == GetProp(payload, "modalType").value
    ensures payload.Obj? && "modalType" in payload.props ==> r.modalType == payload.props["modalType"]
    ensures payload.Obj? && "modalProps" in payload.props && Truthy(payload.props["modalProps"])
      ==> r.modalProps == payload.props["modalProps"]
    ensures !Nullish(payload) && !(payload.Obj? && "modalProps" in payload.props && Truthy(payload.props["modalProps"]))
      ==> r.modalProps == Obj(map[])
  {
    match GetProp(payload, "modalType")
    case Failure(_) => state
    case Success(modalType) =>
      match GetProp(payload, "modalProps")
      case Failure(_) => state
      case Success(modalProps) => Shown(modalType, Or(modalProps, Obj(map[])))
  }

  /** `hideModal`: `null` from any state. */
  function Hide(state: ModalState): (r: ModalState)
    ensures r.Hidden?
  {
    Hidden
  }

  /** The slice reducer; actions of other slices leave the state as it is. */
  function Reduce(state: ModalState, action: Action): ModalState
  {
    match action
    case ShowModal(payload) => Show(state, payload)
    case HideModal => Hide(state)
    case Other => state
  }

  /** The state after dispatching `actions` in order. */
  function ReduceAll(state: ModalState, actions: seq<Action>): ModalState
    decreases |actions|
  {
    if actions == [] then state
    else Reduce(ReduceAll(state, actions[..|actions| - 1]), actions[|actions| - 1])
  }

  /** An action whose result does not depend on the state it is applied to. */
  predicate Effective(a: Action)
  {
    a.HideModal? || (a.ShowModal? && !Nullish(a.payload))
  }

  /** `showModal` with a readable payload replaces the state whatever it was. */
  lemma ShowIgnoresPriorState(s1: ModalState, s2: ModalState, payload: JsValue)
    requires !Nullish(payload)
    ensures Show(s1, payload) == Show(s2, payload)
  {
  }

  /** `hideModal` is idempotent. */
  lemma HideIdempotent(s: ModalState)
    ensures Hide(Hide(s)) == Hide(s)
    ensures Hide(s) == InitialState
  {
  }

  /** Actions that are not effective (of other slices, or with an unreadable payload) change nothing. */
  lemma {:induction false} IneffectiveActionsKeepState(s: ModalState, actions: seq<Action>)
    requires forall i :: 0 <= i < |actions| ==> !Effective(actions[i])
    ensures ReduceAll(s, actions) == s
    decreases |actions|
  {
    if actions != [] {
      IneffectiveActionsKeepState(s, actions[..|actions| - 1]);
    }
  }

  /** Once any effective action has been dispatched, the state no longer depends on where the sequence started. */
  lemma {:induction false} HistoryForgotten(s1: ModalState, s2: ModalState, actions: seq<Action>, k: nat)
    requires k < |actions| && Effective(actions[k])
    ensures ReduceAll(s1, actions) == ReduceAll(s2, actions)
    decreases |actions|
  {
    var last := actions[|actions| - 1];
    var init := actions[..|actions| - 1];
    if k < |actions| - 1 {
      HistoryForgotten(s1, s2, init, k);
    } else if last.ShowModal? {
      ShowIgnoresPriorState(ReduceAll(s1, init), ReduceAll(s2, init), last.payload);
    }
  }

  /** From the initial state, a shown modal always carries truthy `modalProps`. */
  lemma {:induction false} ReachableShownHasProps(actions: seq<Action>)
    ensures var s := ReduceAll(InitialState, actions); s.Shown? ==> Truthy(s.modalProps)
    decreases |actions|
  {
    if actions != [] {
      ReachableShownHasProps(actions[..|actions| - 1]);
    }
  }

  /** `selectModal`: the slice state as held in the root state. */
  function SelectModal(root: map<string, ModalState>): (v: JsValue)
    ensures "modals" !in root ==> v.Undefined?
    ensures "modals" in root ==> v == ToJs(root["modals"])
  {
    if "modals" in root then ToJs(root["modals"]) else Undefined
  }

  /** `selectModalType`: `state.modals?.modalType`, undefined while no modal is shown. */
  function SelectModalType(root: map<string, ModalState>): (v: JsValue)
    ensures "modals" !in root || root["modals"].Hidden? ==> v.Undefined?
    ensures "modals" in root && root["modals"].Shown? ==> v == root["modals"].modalType
  {
    if "modals" in root && root["modals"].Shown? then root["modals"].modalType else Undefined
  }

  /** `selectModalProps`: `state.modals?.modalProps`, undefined while no modal is shown. */
  function SelectModalProps(root: map<string, ModalState>): (v: JsValue)
    ensures "modals" !in root || root["modals"].Hidden? ==> v.Undefined?
    ensures "modals" in root && root["modals"].Shown? ==> v == root["modals"].modalProps
  {
    if "modals" in root && root["modals"].Shown? then root["modals"].modalProps else Undefined
  }

  /** What `showModal({modalType, modalProps})` stores is what the selectors read back. */
  lemma ShowThenSelect(s: ModalState, modalType: JsValue, modalProps: JsValue)
    requires Truthy(modalProps)
    ensures var root := map["modals" := Show(s, Obj(map["modalType" := modalType, "modalProps" := modalProps]))];
      SelectModalType(root) == modalType && SelectModalProps(root) == modalProps
  {
  }

  /** After `hideModal` both selectors read undefined. */
  lemma HideThenSelect(s: ModalState)
    ensures var root := map["modals" := Hide(s)];
      SelectModalType(root).Undefined? && SelectModalProps(root).Undefined?
  {
  }
}
