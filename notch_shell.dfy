/** The desktop shell of src-tauri/src/lib.rs: the notch window's centring
    arithmetic, the tray, shortcut and close handlers over abstract window
    records, and the global-shortcut registry. */
module NotchShell {
  import opened Types

  /** A pixel width reported by the platform (a `u32`), restricted to the
      values that convert to `i32` without changing sign. */
  type Dimension = n: nat | n < 0x8000_0000

  /** A window handle reduced to what the handlers touch. `focused` records
      whether `set_focus` was the last focus call made on the window; hiding
      does not touch it. */
  datatype WindowHandle = WindowHandle(visible: bool, focused: bool, x: int, y: int, width: Dimension)

  /** A parsed accelerator. */
  datatype Shortcut = Shortcut(accelerator: string)

  datatype KeyState = Pressed | Released

  /** The shortcut registered at start-up. */
  const DefaultSuperKey: Shortcut := Shortcut("CommandOrControl+Shift+X")

  /** The event the shortcut handlers emit to the front end. */
  const SuperKeyPress: string := "super-key-press"

  const QuitId: string := "quit"
  const ShowId: string := "show"

  /** `(monitor_w as i32 - window_w as i32) / 2` with Rust's division, which
      truncates toward zero: the left edge that centres the window. */
  function CenterX(monitorW: Dimension, windowW: Dimension): (x: int)
    ensures -0x8000_0000 <= x < 0x8000_0000
    ensures monitorW - windowW >= 0 ==> 2 * x == monitorW - windowW || 2 * x == monitorW - windowW - 1
    ensures monitorW - windowW < 0 ==> 2 * x == monitorW - windowW || 2 * x == monitorW - windowW + 1
    ensures windowW <= monitorW ==> 0 <= x && x + windowW <= monitorW
  {
    var d := monitorW - windowW;
    if d >= 0 then d / 2 else -((-d) / 2)
  }

  /** Reposition at the top centre when the primary monitor is known, then
      show and focus (lib.rs:18-25, 71-78, 93-100). */
  function ShowCentred(w: WindowHandle, monitor: Option<Dimension>): (r: WindowHandle)
    ensures r.visible && r.focused && r.width == w.width
    ensures monitor.Some? ==> r.x == CenterX(monitor.value, w.width) && r.y == 0
    ensures monitor.Some? && w.width <= monitor.value ==> 0 <= r.x && r.x + r.width <= monitor.value
    ensures monitor.None? ==> r.x == w.x && r.y == w.y
  {
    var placed := if monitor.Some? then w.(x := CenterX(monitor.value, w.width), y := 0) else w;
    placed.(visible := true, focused := true)
  }

  /** A tray click: a visible notch is hidden where it is, a hidden one is
      shown (lib.rs:66-80). */
  function TrayToggled(w: WindowHandle, monitor: Option<Dimension>): (r: WindowHandle)
    ensures r.visible == !w.visible
    ensures w.visible ==> r == w.(visible := false)
    ensures !w.visible ==> r == ShowCentred(w, monitor)
  {
    if w.visible then w.(visible := false) else ShowCentred(w, monitor)
  }

  /** A shortcut press: the notch is shown if hidden and never hidden; an
      already visible notch is left exactly as it is (lib.rs:16-27). */
  function ShortcutShown(w: WindowHandle, monitor: Option<Dimension>): (r: WindowHandle)
    ensures r.visible
    ensures w.visible ==> r == w
    ensures !w.visible ==> r == ShowCentred(w, monitor)
  {
    if w.visible then w else ShowCentred(w, monitor)
  }

  /** Two tray clicks give back the original visibility. */
  lemma TrayClickTwice(w: WindowHandle, monitor: Option<Dimension>)
    ensures TrayToggled(TrayToggled(w, monitor), monitor).visible == w.visible
  {
  }

  /** A second shortcut press changes nothing more. */
  lemma ShortcutIdempotent(w: WindowHandle, monitor: Option<Dimension>)
    ensures ShortcutShown(ShortcutShown(w, monitor), monitor) == ShortcutShown(w, monitor)
  {
  }

  /** The application shell: the two windows (absent when not created), the
      registered global shortcuts, the events emitted to the front end and
      the exit code once the app was asked to exit. */
  class Shell {
    var notch: Option<WindowHandle>
    var main: Option<WindowHandle>
    var shortcuts: set<Shortcut>
    var emitted: seq<string>
    var exitCode: Option<int>

    /** The `setup` hook (lib.rs:43-116): registers the default shortcut. */
    constructor (notch: Option<WindowHandle>, main: Option<WindowHandle>)
      ensures this.notch == notch && this.main == main
      ensures shortcuts == {DefaultSuperKey} && emitted == [] && exitCode == None
    {
      this.notch := notch;
      this.main := main;
      shortcuts := {DefaultSuperKey};
      emitted := [];
      exitCode := None;
    }

    /** update_super_key (lib.rs:9-33). `unregistered` says whether
        unregistering every shortcut succeeded (a failure is ignored and
        taken to leave the registry as it was), `parsed` is the result of
        parsing `s`, and `registration` the error reported by the
        registration call, if any. The unregistering comes first, so a
        failed parse or registration adds nothing. */
    method UpdateSuperKey(s: string, unregistered: bool, parsed: Option<Shortcut>, registration: Option<string>)
      returns (r: Result<(), string>)
      modifies this`shortcuts
      ensures parsed.None? ==> r == Err("invalid shortcut: " + s)
      ensures parsed.Some? && registration.Some? ==> r == Err(registration.value)
      ensures parsed.Some? && registration.None? ==> r == Ok(())
      ensures r.Ok? ==> shortcuts == (if unregistered then {} else old(shortcuts)) + {parsed.value}
      ensures r.Err? ==> shortcuts == if unregistered then {} else old(shortcuts)
    {
      if unregistered {
        shortcuts := {};
      }
      if parsed.None? {
        return Err("invalid shortcut: " + s);
      }
      if registration.Some? {
        return Err(registration.value);
      }
      shortcuts := shortcuts + {parsed.value};
      r := Ok(());
    }

    /** A global shortcut event (lib.rs:14-29, 89-104): the handler runs for
        registered shortcuts, acts only on a press, shows the notch if it
        exists and is hidden, and emits the press event exactly once. */
    method OnShortcut(key: Shortcut, state: KeyState, monitor: Option<Dimension>)
      modifies this`notch, this`emitted
      ensures key in shortcuts && state == Pressed ==>
        && emitted == old(emitted) + [SuperKeyPress]
        && notch == if old(notch).Some? then Some(ShortcutShown(old(notch).value, monitor)) else None
      ensures !(key in shortcuts && state == Pressed) ==>
        emitted == old(emitted) && notch == old(notch)
      ensures notch.Some? == old(notch).Some?
      ensures old(notch).Some? && old(notch).value.visible ==> notch == old(notch)
    {
      if key in shortcuts && state == Pressed {
        if notch.Some? {
          notch := Some(ShortcutShown(notch.value, monitor));
        }
        emitted := emitted + [SuperKeyPress];
      }
    }

    /** A click on the tray icon (lib.rs:63-82). */
    method OnTrayClick(monitor: Option<Dimension>)
      modifies this`notch
      ensures notch == if old(notch).Some? then Some(TrayToggled(old(notch).value, monitor)) else None
    {
      if notch.Some? {
        notch := Some(TrayToggled(notch.value, monitor));
      }
    }

    /** A tray-menu event (lib.rs:51-62): `quit` exits with code 0, `show`
        shows and focuses the main window, any other id does nothing. */
    method OnMenuEvent(id: string)
      modifies this`main, this`exitCode
      ensures id == QuitId ==> exitCode == Some(0) && main == old(main)
      ensures id == ShowId ==> exitCode == old(exitCode)
      ensures id == ShowId && old(main).Some? ==>
        main == Some(old(main).value.(visible := true, focused := true))
      ensures id == ShowId && old(main).None? ==> main == None
      ensures id != QuitId && id != ShowId ==> main == old(main) && exitCode == old(exitCode)
    {
      if id == QuitId {
        exitCode := Some(0);
      } else if id == ShowId {
        if main.Some? {
          main := Some(main.value.(visible := true, focused := true));
        }
      }
    }

    /** A close request on the main window (lib.rs:108-115): the close is
        prevented and the window hidden, so the app keeps running. */
    method OnMainCloseRequested() returns (closePrevented: bool)
      modifies this`main
      ensures old(main).Some? ==> closePrevented && main == Some(old(main).value.(visible := false))
      ensures old(main).None? ==> !closePrevented && main == None
    {
      closePrevented := main.Some?;
      if main.Some? {
        main := Some(main.value.(visible := false));
      }
    }
  }
}
