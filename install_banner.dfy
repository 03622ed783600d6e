/**
 * The install banner (src/components/PWAInstallBanner.tsx): it offers to
 * install the site as an app three seconds after mount, unless the user
 * dismissed it once before.
 *
 * `isInstallable`, `isInstalled` and the result of `installApp` come from
 * a hook that is not part of this model: they are parameters. The 3-second
 * timer is the flag `timerPending`, and `TimerFires` is it firing.
 */
module InstallBanner {
  const DismissedKey: string := "pwa-banner-dismissed"

  /** Whether storage records a dismissal, as the truthiness test reads it. */
  predicate StoredDismissal(storage: map<string, string>) {
    DismissedKey in storage && storage[DismissedKey] != ""
  }

  /** Whether the banner is rendered. */
  predicate Rendered(visible: bool, dismissed: bool, installed: bool) {
    visible && !dismissed && !installed
  }

  /** The component's state and the storage. */
  class Banner {
    var isVisible: bool
    var isDismissed: bool
    var storage: map<string, string>
    /** Whether the show timer is scheduled and not cleared. */
    var timerPending: bool

    constructor (saved: map<string, string>)
      ensures !isVisible && !isDismissed && storage == saved && !timerPending
    {
      isVisible := false;
      isDismissed := false;
      storage := saved;
      timerPending := false;
    }

    /**
     * The effect, on mount and whenever installability changes. The
     * previous run's cleanup clears its timer first.
     */
    method Effect(installable: bool, installed: bool)
      modifies this
      ensures StoredDismissal(storage) ==> isDismissed && !timerPending
      ensures !StoredDismissal(storage) ==>
        isDismissed == old(isDismissed) && timerPending == (installable && !installed)
      ensures isVisible == old(isVisible) && storage == old(storage)
    {
      timerPending := false;
      if StoredDismissal(storage) {
        isDismissed := true;
        return;
      }
      if installable && !installed {
        timerPending := true;
      }
    }

    /** The show timer fires. */
    method TimerFires()
      requires timerPending
      modifies this
      ensures isVisible && !timerPending
      ensures isDismissed == old(isDismissed) && storage == old(storage)
    {
      isVisible := true;
      timerPending := false;
    }

    /** `handleInstall`: the banner hides only when the install succeeds. */
    method Install(success: bool)
      modifies this
      ensures isVisible == (old(isVisible) && !success)
      ensures isDismissed == old(isDismissed) && storage == old(storage) && timerPending == old(timerPending)
    {
      if success {
        isVisible := false;
      }
    }

    /** `handleDismiss`: hide the banner now and on every later visit. */
    method Dismiss()
      modifies this
      ensures !isVisible && isDismissed
      ensures storage == old(storage)[DismissedKey := "true"]
      ensures StoredDismissal(storage)
      ensures timerPending == old(timerPending)
    {
      isVisible := false;
      isDismissed := true;
      storage := storage[DismissedKey := "true"];
    }
  }

  /** After a dismissal, a later visit's banner is dismissed on mount and never rendered. */
  method LaterVisit(saved: map<string, string>, installable: bool, installed: bool) returns (b: Banner)
    requires StoredDismissal(saved)
    ensures b.isDismissed && !b.timerPending
    ensures !Rendered(b.isVisible, b.isDismissed, installed)
  {
    b := new Banner(saved);
    b.Effect(installable, installed);
  }
}
