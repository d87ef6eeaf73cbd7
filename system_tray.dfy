/** The notification-area icon of the Windows client and the manager that drives it from
    the connection state. The shell is reached through `Shell_NotifyIcon`, timers and a
    popup menu; here each such call is an entry appended to the tray's effect log, and
    the values the shell hands back (the timer handle, the menu choice) are parameters. */
module Tray {

  import opened Wrappers
  import opened Text

  /** The four connection states the icon shows. */
  datatype ConnectionState = Disconnected | Connecting | Connected | Error

  /** The four icons loaded at initialisation, one per state. */
  datatype Icon = DisconnectedIcon | ConnectingIcon | ConnectedIcon | ErrorIcon

  /** What a menu item's callback does; the manager installs these. */
  datatype Action = ShowMainWindow | ConnectAction | DisconnectAction | SettingsAction | ExitAction

  /** A context-menu item. A separator carries no text of interest. */
  datatype MenuItem = MenuItem(text: string, callback: Option<Action>, enabled: bool, checked: bool, separator: bool)

  /** A menu item with the defaults of the declaration: enabled, unchecked, not a
      separator. */
  function Item(text: string, callback: Option<Action>): MenuItem
  {
    MenuItem(text, callback, true, false, false)
  }

  /** A separator as the manager writes it. */
  const Separator := MenuItem("", None, true, false, true)

  /** How a menu item appears in the popup menu: a separator, or a string entry with its
      command id and its grayed and checked flags. */
  datatype PopupEntry = PopupSeparator | PopupString(id: int, text: string, grayed: bool, checked: bool)

  /** The balloon notification levels used. */
  datatype NotificationLevel = InfoLevel | ErrorLevel

  /** The calls into the shell and into menu callbacks, in the order they happen. */
  datatype TrayEffect =
    | IconAdded(tooltip: string)
    | TimerStarted
    | TimerKilled(handle: nat)
    | IconChanged(icon: Icon)
    | TooltipChanged(tooltip: string)
    | BalloonShown(title: string, message: string, level: NotificationLevel)
    | MenuShown(entries: seq<PopupEntry>)
    | ActionFired(action: Action)
    | NullMessagePosted

  /** The events of the tray's callback message the tray reacts to, and any other. */
  datatype TrayEvent = LeftButtonUp | RightButtonUp | BalloonUserClick | OtherTrayEvent

  /** A window message: the tray's callback message (the event and `wParam`), `WM_TIMER`
      with its timer id, or any other message. */
  datatype WindowMessage = TrayIconMessage(event: TrayEvent, wparam: int) | TimerMessage(timerId: int) | OtherMessage

  /** The id the animation timer is registered under. */
  const AnimationTimerId := 1

  /** The number of frames of the connecting animation. */
  const AnimationFrames := 4

  /** The tooltip and balloon buffers of `NOTIFYICONDATAA` hold 128, 64 and 256 characters;
      `strncpy_s` copies one less than the buffer size and terminates it. */
  const TooltipLimit := 127
  const BalloonTitleLimit := 63
  const BalloonMessageLimit := 255

  /** The first `n` characters of `s`, or all of it. */
  function Truncate(s: string, n: nat): (r: string)
    ensures |r| <= n && r <= s
    ensures |s| <= n ==> r == s
    ensures |s| > n ==> |r| == n
  {
    if |s| <= n then s else s[..n]
  }

  /** The icon for a state: while connecting the disconnected icon on even frames and the
      connecting icon on odd ones, otherwise the state's own icon. */
  function IconFor(state: ConnectionState, frame: int): Icon
  {
    match state
    case Disconnected => DisconnectedIcon
    case Connecting => if frame % 2 == 0 then DisconnectedIcon else ConnectingIcon
    case Connected => ConnectedIcon
    case Error => ErrorIcon
  }

  /** While connecting, every animation tick switches the icon; no other state's icon
      depends on the frame, and each of them has an icon of its own. */
  lemma IconAnimation(state: ConnectionState, frame: int)
    requires 0 <= frame < AnimationFrames
    ensures state == Connecting ==> IconFor(state, (frame + 1) % AnimationFrames) != IconFor(state, frame)
    ensures state != Connecting ==> IconFor(state, (frame + 1) % AnimationFrames) == IconFor(state, frame)
    ensures forall other: ConnectionState ::
      (other != state && other != Connecting && state != Connecting
       ==> IconFor(other, frame) != IconFor(state, frame))
  {
  }

  /** The entries the popup menu gets: item `k` gets command id `k + 1`, separators too. */
  function PopupEntries(items: seq<MenuItem>): (r: seq<PopupEntry>)
    ensures |r| == |items|
  {
    seq(|items|, k requires 0 <= k < |items| =>
      if items[k].separator then PopupSeparator
      else PopupString(k + 1, items[k].text, !items[k].enabled, items[k].checked))
  }

  /** The callback a menu choice fires: the chosen id must name an item of the list, and
      the item must be enabled and have a callback. `TrackPopupMenuEx` returns 0 when the
      menu is dismissed. */
  function Selected(items: seq<MenuItem>, selected: int): (r: Option<Action>)
    ensures r.Some? <==>
      1 <= selected <= |items| && items[selected - 1].enabled && items[selected - 1].callback.Some?
    ensures r.Some? ==> r == items[selected - 1].callback
  {
    if 0 < selected <= |items| && items[selected - 1].callback.Some? && items[selected - 1].enabled
    then items[selected - 1].callback
    else None
  }

  /** Choosing the entry shown for an item fires exactly that item's callback when it is
      enabled; the shown ids are distinct and lie in `1..n`, so no two items share one and
      separators are never chosen. */
  lemma SelectionMatchesEntries(items: seq<MenuItem>)
    ensures var entries := PopupEntries(items);
      forall k :: 0 <= k < |entries| && entries[k].PopupString? ==>
        1 <= entries[k].id <= |items| && !items[k].separator
        && Selected(items, entries[k].id) == (if items[k].enabled then items[k].callback else None)
    ensures var entries := PopupEntries(items);
      forall k, l :: 0 <= k < l < |entries| && entries[k].PopupString? && entries[l].PopupString?
        ==> entries[k].id != entries[l].id
  {
  }

  /** The effects of opening the context menu: when the menu could be created, it is shown
      with its entries, the chosen callback fires, and a null message closes the menu. */
  function ContextMenuEffects(items: seq<MenuItem>, menuCreated: bool, selected: int): seq<TrayEffect>
  {
    if !menuCreated then []
    else
      [MenuShown(PopupEntries(items))]
      + (match Selected(items, selected) case Some(a) => [ActionFired(a)] case None => [])
      + [NullMessagePosted]
  }

  /** The effect of a click that opens the main window: the first item's callback fires,
      if there is one. */
  function FirstItemEffects(items: seq<MenuItem>): seq<TrayEffect>
  {
    if items != [] && items[0].callback.Some? then [ActionFired(items[0].callback.value)] else []
  }

  /** The messages the tray handles: the three tray events, and ticks of its own timer. */
  predicate Handles(msg: WindowMessage)
  {
    match msg
    case TrayIconMessage(event, _) => event != OtherTrayEvent
    case TimerMessage(id) => id == AnimationTimerId
    case OtherMessage => false
  }

  /** `SystemTray`. `shownIcon` is the icon in the shell's notification data (none before
      initialisation) and `animationTimer` the handle `SetTimer` returned (0 when none). */
  class SystemTray {
    var initialized: bool
    var iconsLoaded: bool
    var state: ConnectionState
    var menuItems: seq<MenuItem>
    var shownIcon: Option<Icon>
    var tooltip: string
    var animationTimer: nat
    var animationFrame: int
    var effects: seq<TrayEffect>

    /** The animation frame stays in `[0, 4)`, and the animation timer runs only while
        connecting. */
    predicate Valid()
      reads this
    {
      0 <= animationFrame < AnimationFrames
      && (state != Connecting ==> animationTimer == 0)
    }

    constructor()
      ensures Valid()
      ensures state == Disconnected && !initialized && animationTimer == 0 && animationFrame == 0
      ensures !iconsLoaded && shownIcon == None && menuItems == [] && tooltip == "" && effects == []
    {
      initialized := false;
      iconsLoaded := false;
      state := Disconnected;
      menuItems := [];
      shownIcon := None;
      tooltip := "";
      animationTimer := 0;
      animationFrame := 0;
      effects := [];
    }

    /** `init`: loads the icons, shows the disconnected icon with the tooltip, and asks the
        shell to add the icon; `added` is the shell's answer. */
    method Init(initialTooltip: string, added: bool) returns (ok: bool)
      requires Valid()
      modifies this
      ensures Valid() && ok == added
      ensures iconsLoaded && shownIcon == Some(DisconnectedIcon)
      ensures tooltip == Truncate(initialTooltip, TooltipLimit)
      ensures effects == old(effects) + [IconAdded(tooltip)]
      ensures initialized == (added || old(initialized))
      ensures state == old(state) && menuItems == old(menuItems)
      ensures animationTimer == old(animationTimer) && animationFrame == old(animationFrame)
    {
      iconsLoaded := true;
      shownIcon := Some(DisconnectedIcon);
      tooltip := Truncate(initialTooltip, TooltipLimit);
      effects := effects + [IconAdded(tooltip)];
      if !added {
        return false;
      }
      initialized := true;
      return true;
    }

    /** `set_state`: nothing happens when the state does not change. Entering Connecting
        restarts the animation at frame 0 and starts the timer (`timerHandle` is what
        `SetTimer` returns); entering another state kills a running timer. Then the icon
        is updated. */
    method SetState(newState: ConnectionState, timerHandle: nat)
      requires Valid()
      modifies this
      ensures Valid()
      ensures state == newState
      ensures animationFrame == FrameAfterState(old(state), newState, old(animationFrame))
      ensures animationTimer == TimerAfterState(old(state), newState, old(animationTimer), timerHandle)
      ensures shownIcon == ShownAfterState(old(state), newState, old(animationFrame), iconsLoaded, old(shownIcon))
      ensures effects == old(effects)
        + StateEffects(old(state), newState, old(animationTimer), old(animationFrame), iconsLoaded, old(shownIcon))
      ensures initialized == old(initialized) && iconsLoaded == old(iconsLoaded)
      ensures menuItems == old(menuItems) && tooltip == old(tooltip)
    {
      if state == newState {
        return;
      }
      state := newState;
      if newState == Connecting {
        animationFrame := 0;
        animationTimer := timerHandle;
        effects := effects + [TimerStarted];
      } else if animationTimer != 0 {
        effects := effects + [TimerKilled(animationTimer)];
        animationTimer := 0;
      }
      UpdateIcon();
    }

    /** `set_tooltip`. */
    method SetTooltip(text: string)
      modifies this
      ensures tooltip == Truncate(text, TooltipLimit)
      ensures effects == old(effects) + [TooltipChanged(tooltip)]
      ensures initialized == old(initialized) && iconsLoaded == old(iconsLoaded) && state == old(state)
      ensures menuItems == old(menuItems) && shownIcon == old(shownIcon)
      ensures animationTimer == old(animationTimer) && animationFrame == old(animationFrame)
    {
      tooltip := Truncate(text, TooltipLimit);
      effects := effects + [TooltipChanged(tooltip)];
    }

    /** `show_notification`. */
    method ShowNotification(title: string, message: string, level: NotificationLevel)
      modifies this
      ensures effects == old(effects)
        + [BalloonShown(Truncate(title, BalloonTitleLimit), Truncate(message, BalloonMessageLimit), level)]
      ensures initialized == old(initialized) && iconsLoaded == old(iconsLoaded) && state == old(state)
      ensures menuItems == old(menuItems) && shownIcon == old(shownIcon) && tooltip == old(tooltip)
      ensures animationTimer == old(animationTimer) && animationFrame == old(animationFrame)
    {
      effects := effects + [BalloonShown(Truncate(title, BalloonTitleLimit), Truncate(message, BalloonMessageLimit), level)];
    }

    /** `set_menu`. */
    method SetMenu(items: seq<MenuItem>)
      modifies this
      ensures menuItems == items
      ensures initialized == old(initialized) && iconsLoaded == old(iconsLoaded) && state == old(state)
      ensures shownIcon == old(shownIcon) && tooltip == old(tooltip) && effects == old(effects)
      ensures animationTimer == old(animationTimer) && animationFrame == old(animationFrame)
    {
      menuItems := items;
    }

    /** `handle_message`. A left click with `wParam` 1 and a click on the balloon fire the
        first item's callback; a right click opens the context menu (`menuCreated` and
        `selected` are what `CreatePopupMenu` and `TrackPopupMenuEx` give back); a tick of
        the animation timer advances the frame modulo 4 and updates the icon. Exactly
        these messages are reported as handled. */
    method HandleMessage(msg: WindowMessage, menuCreated: bool, selected: int) returns (handled: bool)
      requires Valid()
      modifies this
      ensures Valid()
      ensures handled <==> Handles(msg)
      ensures msg == TimerMessage(AnimationTimerId) ==>
        animationFrame == (old(animationFrame) + 1) % AnimationFrames
        && shownIcon == ShownAfter(state, animationFrame, iconsLoaded, old(shownIcon))
        && effects == old(effects) + IconEffects(state, animationFrame, iconsLoaded, old(shownIcon))
      ensures msg != TimerMessage(AnimationTimerId) ==>
        animationFrame == old(animationFrame) && shownIcon == old(shownIcon)
        && effects == old(effects) + match msg
          case TrayIconMessage(LeftButtonUp, wparam) => if wparam == 1 then FirstItemEffects(menuItems) else []
          case TrayIconMessage(RightButtonUp, _) => ContextMenuEffects(menuItems, menuCreated, selected)
          case TrayIconMessage(BalloonUserClick, _) => FirstItemEffects(menuItems)
          case _ => []
      ensures initialized == old(initialized) && iconsLoaded == old(iconsLoaded) && state == old(state)
      ensures menuItems == old(menuItems) && tooltip == old(tooltip) && animationTimer == old(animationTimer)
    {
      match msg
      case TrayIconMessage(event, wparam) =>
        match event {
          case LeftButtonUp =>
          if wparam == 1 && menuItems != [] && menuItems[0].callback.Some? {
            effects := effects + [ActionFired(menuItems[0].callback.value)];
          }
          return true;
        case RightButtonUp =>
          ShowContextMenu(menuCreated, selected);
          return true;
        case BalloonUserClick =>
          if menuItems != [] && menuItems[0].callback.Some? {
            effects := effects + [ActionFired(menuItems[0].callback.value)];
          }
          return true;
        case OtherTrayEvent =>
          return false;
        }
      case TimerMessage(id) =>
        if id == AnimationTimerId {
          animationFrame := (animationFrame + 1) % AnimationFrames;
          UpdateIcon();
          return true;
        }
        return false;
      case OtherMessage =>
        return false;
    }

    /** `update_icon`: the shell is told about the state's icon only when it differs from
        the one shown. Before initialisation no icon is loaded and nothing happens. */
    method UpdateIcon()
      modifies this
      ensures shownIcon == ShownAfter(state, animationFrame, iconsLoaded, old(shownIcon))
      ensures effects == old(effects) + IconEffects(state, animationFrame, iconsLoaded, old(shownIcon))
      ensures initialized == old(initialized) && iconsLoaded == old(iconsLoaded) && state == old(state)
      ensures menuItems == old(menuItems) && tooltip == old(tooltip)
      ensures animationTimer == old(animationTimer) && animationFrame == old(animationFrame)
    {
      if iconsLoaded {
        var icon := IconFor(state, animationFrame);
        if shownIcon != Some(icon) {
          shownIcon := Some(icon);
          effects := effects + [IconChanged(icon)];
        }
      }
    }

    /** `show_context_menu`: builds the popup menu from the items, shows it, and fires the
        chosen item's callback when the choice passes the bounds and enabled checks. */
    method ShowContextMenu(menuCreated: bool, selected: int)
      modifies this
      ensures effects == old(effects) + ContextMenuEffects(menuItems, menuCreated, selected)
      ensures initialized == old(initialized) && iconsLoaded == old(iconsLoaded) && state == old(state)
      ensures menuItems == old(menuItems) && shownIcon == old(shownIcon) && tooltip == old(tooltip)
      ensures animationTimer == old(animationTimer) && animationFrame == old(animationFrame)
    {
      if !menuCreated {
        return;
      }
      var entries := BuildPopupMenu(menuItems);
      effects := effects + [MenuShown(entries)];
      if 0 < selected <= |menuItems| {
        var item := menuItems[selected - 1];
        if item.callback.Some? && item.enabled {
          effects := effects + [ActionFired(item.callback.value)];
        }
      }
      effects := effects + [NullMessagePosted];
    }
  }

  /** The icon in the notification data after `update_icon`. */
  function ShownAfter(state: ConnectionState, frame: int, iconsLoaded: bool, shown: Option<Icon>): Option<Icon>
  {
    if iconsLoaded then Some(IconFor(state, frame)) else shown
  }

  /** The shell call `update_icon` makes, if any. */
  function IconEffects(state: ConnectionState, frame: int, iconsLoaded: bool, shown: Option<Icon>): seq<TrayEffect>
  {
    if iconsLoaded && shown != Some(IconFor(state, frame)) then [IconChanged(IconFor(state, frame))] else []
  }

  /** The animation frame after `set_state`: entering Connecting restarts it at 0. */
  function FrameAfterState(oldState: ConnectionState, newState: ConnectionState, frame: int): int
  {
    if oldState != newState && newState == Connecting then 0 else frame
  }

  /** The animation timer after `set_state`: the handle `SetTimer` returned on entering
      Connecting, none on entering any other state, and unchanged when the state is. */
  function TimerAfterState(oldState: ConnectionState, newState: ConnectionState, timer: nat, timerHandle: nat): nat
  {
    if oldState == newState then timer else if newState == Connecting then timerHandle else 0
  }

  /** The icon shown after `set_state`. */
  function ShownAfterState(oldState: ConnectionState, newState: ConnectionState, frame: int,
                           iconsLoaded: bool, shown: Option<Icon>): Option<Icon>
  {
    if oldState == newState then shown
    else ShownAfter(newState, FrameAfterState(oldState, newState, frame), iconsLoaded, shown)
  }

  /** The calls `set_state` makes: none when the state does not change; otherwise the timer
      is started on entering Connecting, or a running one killed, and then the icon is
      updated. */
  function StateEffects(oldState: ConnectionState, newState: ConnectionState, timer: nat, frame: int,
                        iconsLoaded: bool, shown: Option<Icon>): seq<TrayEffect>
  {
    if oldState == newState then []
    else
      (if newState == Connecting then [TimerStarted] else if timer != 0 then [TimerKilled(timer)] else [])
      + IconEffects(newState, FrameAfterState(oldState, newState, frame), iconsLoaded, shown)
  }

  /** After `set_state` the timer runs exactly in the Connecting state (when `SetTimer`
      gave a handle and the timer invariant held before), and once the icons are loaded the
      new state's icon is shown, with at most one timer call and one icon change. */
  lemma StateChange(oldState: ConnectionState, newState: ConnectionState, timer: nat, frame: int,
                    timerHandle: nat, shown: Option<Icon>)
    requires oldState != Connecting ==> timer == 0
    requires oldState == newState ==> shown == Some(IconFor(oldState, frame))
    ensures var t := TimerAfterState(oldState, newState, timer, timerHandle);
      newState != Connecting ==> t == 0
    ensures oldState != newState && newState == Connecting ==>
      TimerAfterState(oldState, newState, timer, timerHandle) == timerHandle
      && FrameAfterState(oldState, newState, frame) == 0
    ensures ShownAfterState(oldState, newState, frame, true, shown)
      == Some(IconFor(newState, FrameAfterState(oldState, newState, frame)))
    ensures |StateEffects(oldState, newState, timer, frame, true, shown)| <= 2
    ensures oldState != newState && oldState != Connecting && newState != Connecting ==>
      StateEffects(oldState, newState, timer, frame, true, shown)
        == IconEffects(newState, frame, true, shown)
  {
  }

  /** The shell is notified exactly when the shown icon changes, and then of the new one. */
  lemma NotifiedOnlyOnChange(state: ConnectionState, frame: int, iconsLoaded: bool, shown: Option<Icon>)
    ensures IconEffects(state, frame, iconsLoaded, shown) != [] <==> ShownAfter(state, frame, iconsLoaded, shown) != shown
    ensures IconEffects(state, frame, iconsLoaded, shown) != [] ==>
      IconEffects(state, frame, iconsLoaded, shown) == [IconChanged(ShownAfter(state, frame, iconsLoaded, shown).value)]
  {
  }

  /** The loop of `show_context_menu` that appends the items to the popup menu with an id
      counter starting at 1 that every item, separators included, advances. */
  method BuildPopupMenu(items: seq<MenuItem>) returns (entries: seq<PopupEntry>)
    ensures entries == PopupEntries(items)
  {
    entries := [];
    var id := 1;
    var k := 0;
    while k < |items|
      invariant 0 <= k <= |items| && id == k + 1
      invariant entries == PopupEntries(items[..k])
    {
      var item := items[k];
      if item.separator {
        entries := entries + [PopupSeparator];
      } else {
        entries := entries + [PopupString(id, item.text, !item.enabled, item.checked)];
      }
      assert items[..k + 1] == items[..k] + [item];
      id := id + 1;
      k := k + 1;
    }
    assert items[..k] == items;
  }

  /** The byte counters are 64-bit unsigned values. */
  newtype uint64 = x: int | 0 <= x < 0x1_0000_0000_0000_0000

  /** The unit `format_bytes` chooses. */
  datatype ByteUnit = B | KB | MB | GB

  /** Bytes below 1024 are shown as bytes, then KB below 1024 KB, MB below 1024 MB, and GB
      from there on. */
  function UnitFor(bytes: uint64): (u: ByteUnit)
    ensures u == B <==> bytes < 1024
    ensures u == KB <==> 1024 <= bytes < 1024 * 1024
    ensures u == MB <==> 1024 * 1024 <= bytes < 1024 * 1024 * 1024
    ensures u == GB <==> 1024 * 1024 * 1024 <= bytes
  {
    if bytes >= 1024 * 1024 * 1024 then GB
    else if bytes >= 1024 * 1024 then MB
    else if bytes >= 1024 then KB
    else B
  }

  /** `format_bytes`. Below 1024 the exact count followed by " B"; the scaled units are
      printed in fixed point with one decimal by the stream, given here as `scaled`. */
  function FormatBytes(bytes: uint64, scaled: (uint64, ByteUnit) -> string): (r: string)
    ensures UnitFor(bytes) != B ==> r == scaled(bytes, UnitFor(bytes))
  {
    if UnitFor(bytes) == B then NatToString(bytes as nat) + " B" else scaled(bytes, UnitFor(bytes))
  }

  /** Below 1024 the text is a decimal number without leading zeros followed by " B", and
      the number read back is the byte count. */
  lemma FormatSmallBytes(bytes: uint64, scaled: (uint64, ByteUnit) -> string)
    requires bytes < 1024
    ensures var r := FormatBytes(bytes, scaled);
      |r| > 2 && r[|r| - 2..] == " B" && IsDigits(r[..|r| - 2])
      && (|r| > 3 ==> r[0] != '0')
      && DecimalValue(r[..|r| - 2]) == bytes as nat
  {
    var digits := NatToString(bytes as nat);
    var r := FormatBytes(bytes, scaled);
    assert r == digits + " B";
    assert r[..|r| - 2] == digits;
    DecimalValueOfNatToString(bytes as nat);
  }

  /** The menu `update_menu` installs: show, separator, the connection action, separator,
      settings, separator, exit. */
  function MenuFor(connected: bool, connecting: bool, callbacks: bool): (items: seq<MenuItem>)
    ensures |items| == 7
    ensures items[1] == Separator && items[3] == Separator && items[5] == Separator
  {
    var action :=
      if connected then Item("Disconnect", if callbacks then Some(DisconnectAction) else None)
      else if connecting then MenuItem("Connecting...", None, false, false, false)
      else Item("Connect", if callbacks then Some(ConnectAction) else None);
    [Item("Show VEIL VPN", Some(ShowMainWindow)), Separator, action, Separator,
     Item("Settings...", if callbacks then Some(SettingsAction) else None), Separator,
     Item("Exit", if callbacks then Some(ExitAction) else None)]
  }

  /** What each menu choice does once the callbacks are installed: 1 shows the window,
      3 disconnects when connected, does nothing while connecting and connects otherwise,
      5 opens the settings, 7 exits, and every other choice does nothing. */
  lemma MenuChoices(connected: bool, connecting: bool, selected: int)
    ensures var items := MenuFor(connected, connecting, true);
      Selected(items, selected) ==
        if selected == 1 then Some(ShowMainWindow)
        else if selected == 3 then
          (if connected then Some(DisconnectAction) else if connecting then None else Some(ConnectAction))
        else if selected == 5 then Some(SettingsAction)
        else if selected == 7 then Some(ExitAction)
        else None
  {
    var items := MenuFor(connected, connecting, true);
    if 1 <= selected <= 7 {
      assert items[selected - 1] == MenuFor(connected, connecting, true)[selected - 1];
    }
  }

  /** The tooltip `update_stats` writes while connected. */
  function StatsTooltip(sent: uint64, received: uint64, scaled: (uint64, ByteUnit) -> string): string
  {
    "VEIL VPN - Connected\nSent: " + FormatBytes(sent, scaled) + "\nReceived: " + FormatBytes(received, scaled)
  }

  /** `SystemTrayManager`. `callbacksInstalled` says whether `init` handed over the
      connect, disconnect, settings and exit callbacks. */
  class SystemTrayManager {
    const tray: SystemTray
    var connected: bool
    var connecting: bool
    var errorMessage: string
    var bytesSent: uint64
    var bytesReceived: uint64
    var callbacksInstalled: bool

    predicate Valid()
      reads this, tray
    {
      tray.Valid()
    }

    constructor()
      ensures Valid() && fresh(tray)
      ensures !connected && !connecting && errorMessage == "" && bytesSent == 0 && bytesReceived == 0
      ensures !callbacksInstalled
      ensures tray.state == Disconnected && !tray.initialized && tray.animationTimer == 0
      ensures tray.animationFrame == 0 && tray.menuItems == [] && tray.effects == []
    {
      tray := new SystemTray();
      connected := false;
      connecting := false;
      errorMessage := "";
      bytesSent := 0;
      bytesReceived := 0;
      callbacksInstalled := false;
    }

    /** `init`: keeps the callbacks, adds the icon with the disconnected tooltip and builds
        the menu. */
    method Init(added: bool)
      requires Valid()
      modifies this, tray
      ensures Valid() && callbacksInstalled
      ensures tray.iconsLoaded && tray.tooltip == "VEIL VPN - Disconnected"
      ensures tray.initialized == (added || old(tray.initialized))
      ensures tray.shownIcon == Some(DisconnectedIcon)
      ensures tray.effects == old(tray.effects) + [IconAdded("VEIL VPN - Disconnected")]
      ensures tray.menuItems == MenuFor(connected, connecting, true)
      ensures connected == old(connected) && connecting == old(connecting) && errorMessage == old(errorMessage)
      ensures bytesSent == old(bytesSent) && bytesReceived == old(bytesReceived)
      ensures tray.state == old(tray.state)
      ensures tray.animationTimer == old(tray.animationTimer) && tray.animationFrame == old(tray.animationFrame)
    {
      callbacksInstalled := true;
      var _ := tray.Init("VEIL VPN - Disconnected", added);
      UpdateMenu();
    }

    /** `set_connected`: records the flag, clears connecting and the error, shows the state
        with its tooltip (and a balloon when connected) and rebuilds the menu. */
    method SetConnected(isConnected: bool)
      requires Valid()
      modifies this, tray
      ensures Valid()
      ensures connected == isConnected && !connecting && errorMessage == ""
      ensures tray.state == (if isConnected then Connected else Disconnected)
      ensures tray.animationTimer == 0
      ensures tray.tooltip == (if isConnected then "VEIL VPN - Connected" else "VEIL VPN - Disconnected")
      ensures tray.animationFrame == old(tray.animationFrame)
      ensures tray.shownIcon
        == ShownAfterState(old(tray.state), tray.state, old(tray.animationFrame), tray.iconsLoaded, old(tray.shownIcon))
      ensures tray.effects == old(tray.effects)
        + StateEffects(old(tray.state), tray.state, old(tray.animationTimer), old(tray.animationFrame),
                       tray.iconsLoaded, old(tray.shownIcon))
        + [TooltipChanged(tray.tooltip)]
        + (if isConnected then [BalloonShown("VEIL VPN", "Connected to VPN server", InfoLevel)] else [])
      ensures tray.initialized == old(tray.initialized) && tray.iconsLoaded == old(tray.iconsLoaded)
      ensures tray.menuItems == MenuFor(isConnected, false, callbacksInstalled)
      ensures bytesSent == old(bytesSent) && bytesReceived == old(bytesReceived)
      ensures callbacksInstalled == old(callbacksInstalled)
    {
      connected := isConnected;
      connecting := false;
      errorMessage := "";
      if isConnected {
        tray.SetState(Connected, 0);
        tray.SetTooltip("VEIL VPN - Connected");
        tray.ShowNotification("VEIL VPN", "Connected to VPN server", InfoLevel);
      } else {
        tray.SetState(Disconnected, 0);
        tray.SetTooltip("VEIL VPN - Disconnected");
      }
      UpdateMenu();
    }

    /** `set_connecting`: sets connecting, leaves connected as it is, clears the error and
        starts the animation (`timerHandle` is what `SetTimer` returns). */
    method SetConnecting(timerHandle: nat)
      requires Valid()
      modifies this, tray
      ensures Valid()
      ensures connecting && connected == old(connected) && errorMessage == ""
      ensures tray.state == Connecting
      ensures tray.animationFrame == FrameAfterState(old(tray.state), Connecting, old(tray.animationFrame))
      ensures tray.animationTimer == TimerAfterState(old(tray.state), Connecting, old(tray.animationTimer), timerHandle)
      ensures tray.tooltip == "VEIL VPN - Connecting..."
      ensures tray.shownIcon
        == ShownAfterState(old(tray.state), Connecting, old(tray.animationFrame), tray.iconsLoaded, old(tray.shownIcon))
      ensures tray.effects == old(tray.effects)
        + StateEffects(old(tray.state), Connecting, old(tray.animationTimer), old(tray.animationFrame),
                       tray.iconsLoaded, old(tray.shownIcon))
        + [TooltipChanged(tray.tooltip)]
      ensures tray.initialized == old(tray.initialized) && tray.iconsLoaded == old(tray.iconsLoaded)
      ensures tray.menuItems == MenuFor(old(connected), true, callbacksInstalled)
      ensures bytesSent == old(bytesSent) && bytesReceived == old(bytesReceived)
      ensures callbacksInstalled == old(callbacksInstalled)
    {
      connecting := true;
      errorMessage := "";
      tray.SetState(Connecting, timerHandle);
      tray.SetTooltip("VEIL VPN - Connecting...");
      UpdateMenu();
    }

    /** `set_error`: clears both flags, keeps the message, shows the error state with its
        tooltip and an error balloon, and rebuilds the menu. */
    method SetError(message: string)
      requires Valid()
      modifies this, tray
      ensures Valid()
      ensures !connected && !connecting && errorMessage == message
      ensures tray.state == Error && tray.animationTimer == 0
      ensures tray.tooltip == Truncate("VEIL VPN - Error: " + message, TooltipLimit)
      ensures tray.animationFrame == old(tray.animationFrame)
      ensures tray.shownIcon
        == ShownAfterState(old(tray.state), Error, old(tray.animationFrame), tray.iconsLoaded, old(tray.shownIcon))
      ensures tray.effects == old(tray.effects)
        + StateEffects(old(tray.state), Error, old(tray.animationTimer), old(tray.animationFrame),
                       tray.iconsLoaded, old(tray.shownIcon))
        + [TooltipChanged(tray.tooltip),
           BalloonShown("VEIL VPN", Truncate("Error: " + message, BalloonMessageLimit), ErrorLevel)]
      ensures tray.initialized == old(tray.initialized) && tray.iconsLoaded == old(tray.iconsLoaded)
      ensures tray.menuItems == MenuFor(false, false, callbacksInstalled)
      ensures bytesSent == old(bytesSent) && bytesReceived == old(bytesReceived)
      ensures callbacksInstalled == old(callbacksInstalled)
    {
      connected := false;
      connecting := false;
      errorMessage := message;
      tray.SetState(Error, 0);
      tray.SetTooltip("VEIL VPN - Error: " + message);
      tray.ShowNotification("VEIL VPN", "Error: " + message, ErrorLevel);
      UpdateMenu();
    }

    /** `update_stats`: the counters are always stored; the tooltip shows them only while
        connected, and is otherwise left alone. */
    method UpdateStats(sent: uint64, received: uint64, scaled: (uint64, ByteUnit) -> string)
      requires Valid()
      modifies this, tray
      ensures Valid()
      ensures bytesSent == sent && bytesReceived == received
      ensures connected ==>
        tray.tooltip == Truncate(StatsTooltip(sent, received, scaled), TooltipLimit)
        && tray.effects == old(tray.effects) + [TooltipChanged(tray.tooltip)]
      ensures !connected ==> tray.tooltip == old(tray.tooltip) && tray.effects == old(tray.effects)
      ensures connected == old(connected) && connecting == old(connecting) && errorMessage == old(errorMessage)
      ensures callbacksInstalled == old(callbacksInstalled)
      ensures tray.state == old(tray.state) && tray.menuItems == old(tray.menuItems)
      ensures tray.animationFrame == old(tray.animationFrame) && tray.shownIcon == old(tray.shownIcon)
      ensures tray.animationTimer == old(tray.animationTimer)
      ensures tray.initialized == old(tray.initialized) && tray.iconsLoaded == old(tray.iconsLoaded)
    {
      bytesSent := sent;
      bytesReceived := received;
      if connected {
        tray.SetTooltip(StatsTooltip(sent, received, scaled));
      }
    }

    /** `handle_message`, passed on to the tray. */
    method HandleMessage(msg: WindowMessage, menuCreated: bool, selected: int) returns (handled: bool)
      requires Valid()
      modifies tray
      ensures Valid()
      ensures handled <==> Handles(msg)
      ensures msg == TimerMessage(AnimationTimerId) ==>
        tray.animationFrame == (old(tray.animationFrame) + 1) % AnimationFrames
        && tray.shownIcon == ShownAfter(tray.state, tray.animationFrame, tray.iconsLoaded, old(tray.shownIcon))
        && tray.effects == old(tray.effects) + IconEffects(tray.state, tray.animationFrame, tray.iconsLoaded, old(tray.shownIcon))
      ensures msg != TimerMessage(AnimationTimerId) ==>
        tray.animationFrame == old(tray.animationFrame) && tray.shownIcon == old(tray.shownIcon)
        && tray.effects == old(tray.effects) + match msg
          case TrayIconMessage(LeftButtonUp, wparam) => if wparam == 1 then FirstItemEffects(tray.menuItems) else []
          case TrayIconMessage(RightButtonUp, _) => ContextMenuEffects(tray.menuItems, menuCreated, selected)
          case TrayIconMessage(BalloonUserClick, _) => FirstItemEffects(tray.menuItems)
          case _ => []
      ensures tray.initialized == old(tray.initialized) && tray.iconsLoaded == old(tray.iconsLoaded)
      ensures tray.state == old(tray.state) && tray.menuItems == old(tray.menuItems)
      ensures tray.tooltip == old(tray.tooltip) && tray.animationTimer == old(tray.animationTimer)
    {
      handled := tray.HandleMessage(msg, menuCreated, selected);
    }

    /** `update_menu`. */
    method UpdateMenu()
      modifies tray
      ensures tray.menuItems == MenuFor(connected, connecting, callbacksInstalled)
      ensures tray.state == old(tray.state) && tray.tooltip == old(tray.tooltip)
      ensures tray.effects == old(tray.effects) && tray.shownIcon == old(tray.shownIcon)
      ensures tray.animationTimer == old(tray.animationTimer) && tray.animationFrame == old(tray.animationFrame)
      ensures tray.initialized == old(tray.initialized) && tray.iconsLoaded == old(tray.iconsLoaded)
    {
      tray.SetMenu(MenuFor(connected, connecting, callbacksInstalled));
    }
  }
}
