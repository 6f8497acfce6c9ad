/** Keyboard input: the closed vocabulary of application events, the total
    key-to-event mapping, and the filter that lets only key presses and
    terminal resizes through. */
module Event {
  import opened Common

  /** Modifier keys held with a key. */
  datatype Modifier = Shift | Control | Alt | Super | Hyper | Meta

  /** The key codes the mapping distinguishes; every other key is `OtherKey`. */
  datatype KeyCode =
    | CharKey(c: char)
    | UpKey | DownKey | LeftKey | RightKey | EnterKey | EscKey
    | OtherKey

  datatype KeyEventKind = Press | Repeat | Release

  datatype KeyEvent = KeyEvent(code: KeyCode, modifiers: set<Modifier>, kind: KeyEventKind)

  /** What the terminal reports. */
  datatype TermEvent =
    | KeyInput(key: KeyEvent)
    | ResizeInput(width: nat, height: nat)
    | FocusGained
    | FocusLost
    | MouseInput
    | PasteInput(text: string)

  /** The application's event vocabulary (`NoEvent` is the program's `None`). */
  datatype AppEvent =
    | Quit
    | NavigateTab(index: nat)
    | Up
    | Down
    | Enter
    | Start
    | Stop
    | Terminate
    | Refresh
    | Schedule
    | ShowHelp
    | OpenSettings
    | ModifySettingValue(delta: int)
    | CancelSettings
    | Resize(width: nat, height: nat)
    | ConfigureAws
    | SsoLogin
    | ShowChangelog
    | NoEvent

  /** The characters that are bound to an event (with any modifiers). */
  const BOUND_CHARS: set<char> :=
    {'q', 'c', '1', '2', '3', '4', '5', 'k', 'j', 's', 'x', 't', 'r', 'a', '?', 'h', ',', '-', '+', '=', 'l'}

  /** Whether a key code is bound to some event. */
  predicate IsBound(code: KeyCode)
  {
    match code
    case CharKey(c) => c in BOUND_CHARS
    case OtherKey => false
    case _ => true
  }

  /** The key-to-event table. Only Ctrl+C looks at the modifiers: with exactly
      Control held, 'c' quits, and with any other modifiers it configures AWS. */
  function MapKeyEvent(key: KeyEvent): (e: AppEvent)
    ensures e == Quit <==>
      key.code == CharKey('q') || (key.code == CharKey('c') && key.modifiers == {Control})
    ensures e == ConfigureAws <==> key.code == CharKey('c') && key.modifiers != {Control}
    ensures e.NavigateTab? <==> key.code.CharKey? && '1' <= key.code.c <= '5'
    ensures e.NavigateTab? ==> e.index == key.code.c as int - '1' as int
    ensures e == Up <==> key.code == UpKey || key.code == CharKey('k')
    ensures e == Down <==> key.code == DownKey || key.code == CharKey('j')
    ensures e == Enter <==> key.code == EnterKey
    ensures e == Start <==> key.code == CharKey('s')
    ensures e == Stop <==> key.code == CharKey('x')
    ensures e == Terminate <==> key.code == CharKey('t')
    ensures e == Refresh <==> key.code == CharKey('r')
    ensures e == Schedule <==> key.code == CharKey('a')
    ensures e == ShowHelp <==> key.code == CharKey('?') || key.code == CharKey('h')
    ensures e == OpenSettings <==> key.code == CharKey(',')
    ensures e == ModifySettingValue(-1) <==> key.code == LeftKey || key.code == CharKey('-')
    ensures e == ModifySettingValue(1) <==>
      key.code == RightKey || key.code == CharKey('+') || key.code == CharKey('=')
    ensures e.ModifySettingValue? ==> e.delta == 1 || e.delta == -1
    ensures e == SsoLogin <==> key.code == CharKey('l')
    ensures e == CancelSettings <==> key.code == EscKey
    ensures e == NoEvent <==> !IsBound(key.code)
    ensures !e.Resize? && e != ShowChangelog
  {
    match key.code
    case CharKey('q') => Quit
    case CharKey('c') => if key.modifiers == {Control} then Quit else ConfigureAws
    case CharKey('1') => NavigateTab(0)
    case CharKey('2') => NavigateTab(1)
    case CharKey('3') => NavigateTab(2)
    case CharKey('4') => NavigateTab(3)
    case UpKey => Up
    case CharKey('k') => Up
    case DownKey => Down
    case CharKey('j') => Down
    case EnterKey => Enter
    case CharKey('s') => Start
    case CharKey('x') => Stop
    case CharKey('t') => Terminate
    case CharKey('r') => Refresh
    case CharKey('a') => Schedule
    case CharKey('?') => ShowHelp
    case CharKey('h') => ShowHelp
    case CharKey(',') => OpenSettings
    case CharKey('5') => NavigateTab(4)
    case LeftKey => ModifySettingValue(-1)
    case CharKey('-') => ModifySettingValue(-1)
    case RightKey => ModifySettingValue(1)
    case CharKey('+') => ModifySettingValue(1)
    case CharKey('=') => ModifySettingValue(1)
    case CharKey('l') => SsoLogin
    case EscKey => CancelSettings
    case _ => NoEvent
  }

  /** One poll of the terminal (`None` when the tick elapsed without input):
      key presses are mapped, resizes pass through, everything else is dropped. */
  function PollEvent(input: Option<TermEvent>): (r: Option<AppEvent>)
    ensures r.Some? <==>
      input.Some? && ((input.value.KeyInput? && input.value.key.kind == Press) || input.value.ResizeInput?)
    ensures r.Some? && input.value.KeyInput? ==> r.value == MapKeyEvent(input.value.key)
    ensures r.Some? && input.value.ResizeInput? ==> r.value == Resize(input.value.width, input.value.height)
  {
    match input
    case None => None
    case Some(KeyInput(key)) => if key.kind == Press then Some(MapKeyEvent(key)) else None
    case Some(ResizeInput(w, h)) => Some(Resize(w, h))
    case Some(_) => None
  }
}
