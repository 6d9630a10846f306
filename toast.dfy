/**
 * Toast notifications: a message shown for a number of milliseconds, and
 * the manager holding at most one of them. The monotonic clock is an
 * explicit parameter `now`, in nanoseconds.
 */
module Toast {

  import opened Wrappers
  import opened Text

  const NanosPerMilli: nat := 1_000_000

  /** A toast: its message, how long it lasts and when it was created, both
      in nanoseconds. */
  datatype Toast = Toast(message: String, duration: nat, createdAt: nat)

  /** `Toast::new`: the message, a duration of `durationMs` milliseconds,
      created at `now`. */
  function NewToast(message: String, durationMs: nat, now: nat): (t: Toast)
    ensures t.message == message
    ensures t.duration == durationMs * NanosPerMilli
    ensures t.createdAt == now
  {
    Toast(message, durationMs * NanosPerMilli, now)
  }

  /** Time since creation; the clock saturates at zero rather than going
      negative. */
  function Elapsed(t: Toast, now: nat): (e: nat)
    ensures now >= t.createdAt ==> t.createdAt + e == now
    ensures now <= t.createdAt ==> e == 0
  {
    if now >= t.createdAt then now - t.createdAt else 0
  }

  /** A toast expires once strictly more than its duration has elapsed. */
  predicate IsExpired(t: Toast, now: nat)
    ensures IsExpired(t, now) ==> now > t.createdAt
  {
    Elapsed(t, now) > t.duration
  }

  /** Expired exactly when the clock is past creation plus duration. */
  lemma ExpiredIff(t: Toast, now: nat)
    ensures IsExpired(t, now) <==> now > t.createdAt + t.duration
  {
  }

  /** Once expired, a toast stays expired as the clock moves on. */
  lemma ExpiryIsPermanent(t: Toast, now: nat, later: nat)
    requires IsExpired(t, now) && now <= later
    ensures IsExpired(t, later)
  {
  }

  /** A toast is never expired when it is created, nor at the instant its
      duration runs out. */
  lemma FreshToastNotExpired(message: String, durationMs: nat, now: nat)
    ensures !IsExpired(NewToast(message, durationMs, now), now)
    ensures !IsExpired(NewToast(message, durationMs, now), now + durationMs * NanosPerMilli)
    ensures IsExpired(NewToast(message, durationMs, now), now + durationMs * NanosPerMilli + 1)
  {
  }

  class ToastManager {
    var toast: Option<Toast>

    /** `ToastManager::new` and `default`: no toast. */
    constructor ()
      ensures toast == None
    {
      toast := None;
    }

    /** Replaces any current toast with a new one. */
    method Show(message: String, durationMs: nat, now: nat)
      modifies this`toast
      ensures toast == Some(NewToast(message, durationMs, now))
    {
      toast := Some(NewToast(message, durationMs, now));
    }

    method Clear()
      modifies this`toast
      ensures toast == None
    {
      toast := None;
    }

    /** Drops the toast if it has expired; otherwise changes nothing. */
    method CheckExpired(now: nat)
      modifies this`toast
      ensures old(toast).Some? && IsExpired(old(toast).value, now) ==> toast == None
      ensures !(old(toast).Some? && IsExpired(old(toast).value, now)) ==> toast == old(toast)
      ensures toast.Some? ==> !IsExpired(toast.value, now)
    {
      if toast.Some? {
        if IsExpired(toast.value, now) {
          toast := None;
        }
      }
    }

    function GetToast(): (r: Option<Toast>)
      reads this
      ensures r == toast
    {
      toast
    }
  }

  /** The manager's behaviour on values: what `CheckExpired` leaves. */
  function AfterCheck(toast: Option<Toast>, now: nat): (r: Option<Toast>)
    ensures r.Some? ==> r == toast && !IsExpired(r.value, now)
    ensures r.None? ==> toast.None? || IsExpired(toast.value, now)
  {
    if toast.Some? && IsExpired(toast.value, now) then None else toast
  }

  /** Checking twice at the same time is checking once, and a toast that
      survived a check at `later` also survived every earlier check. */
  lemma CheckIdempotentAndMonotone(toast: Option<Toast>, now: nat, later: nat)
    requires now <= later
    ensures AfterCheck(AfterCheck(toast, now), now) == AfterCheck(toast, now)
    ensures AfterCheck(toast, later).Some? ==> AfterCheck(toast, now) == toast
  {
    if toast.Some? && AfterCheck(toast, later).Some? && IsExpired(toast.value, now) {
      ExpiryIsPermanent(toast.value, now, later);
    }
  }

  /** A toast shown for `durationMs` milliseconds survives every check up
      to the end of its duration and is gone at any check after that. */
  method ShowAndCheck(m: ToastManager, message: String, durationMs: nat, shownAt: nat, checkedAt: nat)
    modifies m`toast
    ensures checkedAt <= shownAt + durationMs * NanosPerMilli ==> m.toast == Some(NewToast(message, durationMs, shownAt))
    ensures checkedAt > shownAt + durationMs * NanosPerMilli ==> m.toast == None
  {
    m.Show(message, durationMs, shownAt);
    m.CheckExpired(checkedAt);
  }
}
