/** The early sketch of the class version (packages/mic_manager, second
    file): three lazily created singletons, a UI state machine that is only a
    transition table, and default state texts that the first `getInstance`
    call may replace. A static field of a TypeScript class lives here in a
    "statics" object of its own. */
module MicManagerSingletons {
  import opened Media
  import JfMicMgr

  // ---------------------------------------------------------------------
  // The UI state machine
  // ---------------------------------------------------------------------

  /** The UI states, in declaration order. */
  datatype UIState = Idle | Recording | Uninitialized | Error

  /** The table of allowed UI state changes: no state leads to itself or
      back to Uninitialized, every state but Error can fail, and recording
      starts only from Idle. */
  function UITransitions(from: UIState): (next: seq<UIState>)
    ensures from !in next && Uninitialized !in next
    ensures Error in next <==> from != Error
    ensures Recording in next <==> from == Idle
  {
    match from
    case Uninitialized => [Idle, Error]
    case Idle => [Recording, Error]
    case Recording => [Idle, Error]
    case Error => [Idle]
  }

  predicate UICanChange(from: UIState, to: UIState)
  {
    to in UITransitions(from)
  }

  /** The closure-based manager's state with the same name. */
  function SessionState(s: UIState): JfMicMgr.MgrState
  {
    match s
    case Idle => JfMicMgr.Idle
    case Recording => JfMicMgr.Recording
    case Uninitialized => JfMicMgr.Uninitialized
    case Error => JfMicMgr.Error
  }

  /** The UI table is the session table less exactly one move: an
      uninitialised UI cannot start recording. */
  lemma UITableStricterBySetupToRecording(s: UIState, t: UIState)
    ensures UICanChange(s, t) <==>
            JfMicMgr.CanChange(SessionState(s), SessionState(t)) && !(s == Uninitialized && t == Recording)
  {
  }

  /** No UI state changes to itself, nothing returns to Uninitialized, and
      Error is left only for Idle. */
  lemma UITableShape(s: UIState, t: UIState)
    ensures UICanChange(s, t) ==> s != t && t != Uninitialized
    ensures UICanChange(Error, t) <==> t == Idle
  {
  }

  // ---------------------------------------------------------------------
  // State texts
  // ---------------------------------------------------------------------

  /** The text shown for each UI state. */
  datatype StateTexts = StateTexts(idle: string, recording: string, uninitialized: string, error: string)
  {
    function Text(s: UIState): string
    {
      match s
      case Idle => idle
      case Recording => recording
      case Uninitialized => uninitialized
      case Error => error
    }
  }

  /** Microphone, stop sign, building construction, no entry. */
  const DefaultStateTexts := StateTexts("\U{1F399}\U{FE0F}", "\U{1F6D1}", "\U{1F3D7}\U{FE0F}", "\U{26D4}")

  /** The texts a caller may supply; an absent one is `undefined`. */
  datatype TextParams = TextParams(
    idle: Option<string>, recording: Option<string>,
    uninitialized: Option<string>, error: Option<string>)
  {
    function Supplied(s: UIState): Option<string>
    {
      match s
      case Idle => idle
      case Recording => recording
      case Uninitialized => uninitialized
      case Error => error
    }
  }

  /** `supplied || current`: an absent or empty text keeps the current one. */
  function Pick(supplied: Option<string>, current: string): (text: string)
    ensures supplied.Some? && supplied.value != "" ==> text == supplied.value
    ensures supplied.None? || supplied.value == "" ==> text == current
  {
    if supplied.Some? && supplied.value != "" then supplied.value else current
  }

  /** The texts after `init`. */
  function InitTexts(current: StateTexts, params: TextParams): (texts: StateTexts)
    ensures forall s :: texts.Text(s) == Pick(params.Supplied(s), current.Text(s))
  {
    StateTexts(
      Pick(params.idle, current.idle),
      Pick(params.recording, current.recording),
      Pick(params.uninitialized, current.uninitialized),
      Pick(params.error, current.error))
  }

  /** Every state shows its supplied text when that is non-empty, and keeps
      its current text otherwise. */
  lemma InitTextsPerState(current: StateTexts, params: TextParams, s: UIState)
    ensures params.Supplied(s).Some? && params.Supplied(s).value != "" ==>
              InitTexts(current, params).Text(s) == params.Supplied(s).value
    ensures params.Supplied(s).None? || params.Supplied(s).value == "" ==>
              InitTexts(current, params).Text(s) == current.Text(s)
  {
  }

  /** Initialising twice with the same texts is initialising once. */
  lemma InitTextsIdempotent(current: StateTexts, params: TextParams)
    ensures InitTexts(InitTexts(current, params), params) == InitTexts(current, params)
  {
  }

  /** Starting from the defaults, no state is ever left without a text. */
  lemma InitTextsNeverEmpty(params: TextParams, s: UIState)
    ensures InitTexts(DefaultStateTexts, params).Text(s) != ""
  {
  }

  // ---------------------------------------------------------------------
  // Root element
  // ---------------------------------------------------------------------

  datatype Element = DocumentBody | ElementRef(id: nat)

  /** `params?.rootElement || document.body` */
  function RootOf(rootElement: Option<Element>): (e: Element)
    ensures rootElement.Some? ==> e == rootElement.value
    ensures rootElement.None? ==> e == DocumentBody
  {
    if rootElement.Some? then rootElement.value else DocumentBody
  }

  datatype UIParams = UIParams(rootElement: Option<Element>, texts: TextParams)

  // ---------------------------------------------------------------------
  // The three singletons
  // ---------------------------------------------------------------------

  class MicManager {
    constructor Make()
    {
    }
  }

  class MicManagerEngine {
    constructor Make()
    {
    }
  }

  class MicManagerUI {
    var currentState: UIState

    constructor Make()
      ensures currentState == Uninitialized
    {
      currentState := Uninitialized;
    }
  }

  /** The static `MicManager.instance`. */
  class MicManagerStatics {
    var instance: MicManager?

    constructor ()
      ensures instance == null
    {
      instance := null;
    }

    /** The private constructor (its `init` does nothing): refused while an
        instance is stored. */
    method Construct() returns (m: MicManager?, err: Option<string>)
      ensures instance != null ==> m == null && err == Some("MicManager instance already created")
      ensures instance == null ==> m != null && fresh(m) && err == None
    {
      if instance != null {
        return null, Some("MicManager instance already created");
      }
      m := new MicManager.Make();
      err := None;
    }

    /** Constructs on the first call only; every later call returns the
        stored instance. */
    method GetInstance() returns (m: MicManager)
      modifies this
      ensures old(instance) != null ==> m == old(instance)
      ensures old(instance) == null ==> fresh(m)
      ensures instance == m
    {
      if instance == null {
        var made, _ := Construct();
        instance := made;
      }
      m := instance;
    }
  }

  /** The static `MicManagerEngine.instance`. */
  class MicManagerEngineStatics {
    var instance: MicManagerEngine?

    constructor ()
      ensures instance == null
    {
      instance := null;
    }

    method Construct() returns (m: MicManagerEngine?, err: Option<string>)
      ensures instance != null ==> m == null && err == Some("MicManagerEngine instance already created")
      ensures instance == null ==> m != null && fresh(m) && err == None
    {
      if instance != null {
        return null, Some("MicManagerEngine instance already created");
      }
      m := new MicManagerEngine.Make();
      err := None;
    }

    method GetInstance() returns (m: MicManagerEngine)
      modifies this
      ensures old(instance) != null ==> m == old(instance)
      ensures old(instance) == null ==> fresh(m)
      ensures instance == m
    {
      if instance == null {
        var made, _ := Construct();
        instance := made;
      }
      m := instance;
    }
  }

  /** The statics of `MicManagerUI`: the instance, the root element and the
      state texts. */
  class MicManagerUIStatics {
    var instance: MicManagerUI?
    var rootElement: Element
    var stateTexts: StateTexts

    constructor ()
      ensures instance == null && rootElement == DocumentBody && stateTexts == DefaultStateTexts
    {
      instance := null;
      rootElement := DocumentBody;
      stateTexts := DefaultStateTexts;
    }

    /** `init(params)` */
    method Init(params: UIParams)
      modifies this`rootElement, this`stateTexts
      ensures rootElement == RootOf(params.rootElement)
      ensures stateTexts == InitTexts(old(stateTexts), params.texts)
    {
      rootElement := RootOf(params.rootElement);
      var texts := stateTexts;
      texts := texts.(uninitialized := Pick(params.texts.uninitialized, texts.uninitialized));
      texts := texts.(idle := Pick(params.texts.idle, texts.idle));
      texts := texts.(recording := Pick(params.texts.recording, texts.recording));
      texts := texts.(error := Pick(params.texts.error, texts.error));
      stateTexts := texts;
    }

    /** The private constructor: refused while an instance is stored,
        otherwise it runs `init` and yields an uninitialised UI. */
    method Construct(params: UIParams) returns (ui: MicManagerUI?, err: Option<string>)
      modifies this`rootElement, this`stateTexts
      ensures old(instance) != null ==>
                && ui == null && err == Some("MicManagerUI instance already created")
                && rootElement == old(rootElement) && stateTexts == old(stateTexts)
      ensures old(instance) == null ==>
                && ui != null && fresh(ui) && err == None && ui.currentState == Uninitialized
                && rootElement == RootOf(params.rootElement)
                && stateTexts == InitTexts(old(stateTexts), params.texts)
    {
      if instance != null {
        return null, Some("MicManagerUI instance already created");
      }
      Init(params);
      ui := new MicManagerUI.Make();
      err := None;
    }

    /** Constructs (and initialises) on the first call only; later calls
        return the stored instance and ignore their parameters. */
    method GetInstance(params: UIParams) returns (ui: MicManagerUI)
      modifies this
      ensures instance == ui
      ensures old(instance) != null ==>
                ui == old(instance) && rootElement == old(rootElement) && stateTexts == old(stateTexts)
      ensures old(instance) == null ==>
                && fresh(ui) && ui.currentState == Uninitialized
                && rootElement == RootOf(params.rootElement)
                && stateTexts == InitTexts(old(stateTexts), params.texts)
    {
      if instance == null {
        var made, _ := Construct(params);
        instance := made;
      }
      ui := instance;
    }
  }

  /** Two `getInstance` calls with different parameters yield one UI, set up
      by the first call's parameters alone. */
  method FirstParamsWin(statics: MicManagerUIStatics, first: UIParams, second: UIParams)
    returns (a: MicManagerUI, b: MicManagerUI)
    requires statics.instance == null
    modifies statics
    ensures a == b
    ensures statics.rootElement == RootOf(first.rootElement)
    ensures statics.stateTexts == InitTexts(old(statics.stateTexts), first.texts)
  {
    a := statics.GetInstance(first);
    b := statics.GetInstance(second);
  }
}
