/**
 * The order-detail page: the 15-minute payment countdown shown as `MM:SS`,
 * its start and stop state, the bounded payment-status poll, the single
 * ticket turned into a list, and the `isPurchasing` flag around payment.
 */
module OrderDetail {
  import opened Wrappers
  import opened Strings

  // ---------------------------------------------------------------------
  // MM:SS
  // ---------------------------------------------------------------------

  /** `updateCountdownDisplay`'s text: minutes and seconds, each padded to two digits. */
  function FormatMMSS(seconds: nat): (t: string)
    ensures IsMMSS(t)
    ensures seconds < 6000 ==> |t| == 5
  {
    var minutes := seconds / 60;
    var secs := seconds % 60;
    PaddedRoundTrip(minutes);
    PaddedRoundTrip(secs);
    PadStart2(NatToDecimal(minutes)) + ":" + PadStart2(NatToDecimal(secs))
  }

  /** Digits, a colon, then exactly two digits. */
  predicate IsMMSS(t: string) {
    |t| >= 5 && t[|t| - 3] == ':' && AllDigits(t[..|t| - 3]) && AllDigits(t[|t| - 2..])
  }

  /** Reads an `MM:SS` text back as a number of seconds. */
  function ParseMMSS(t: string): nat
    requires IsMMSS(t)
  {
    DecimalValue(t[..|t| - 3]) * 60 + DecimalValue(t[|t| - 2..])
  }

  /** Where the two parts of `mm + ":" + ss` sit when `ss` has two characters. */
  lemma ColonSplit(mm: string, ss: string)
    requires |ss| == 2
    ensures var t := mm + ":" + ss;
            |t| == |mm| + 3 && t[..|t| - 3] == mm && t[|t| - 3] == ':' && t[|t| - 2..] == ss
  {
  }

  /** The text shows the minutes and the seconds below 60 that make up the count. */
  lemma FormatRoundTrip(seconds: nat)
    ensures ParseMMSS(FormatMMSS(seconds)) == seconds
    ensures DecimalValue(FormatMMSS(seconds)[|FormatMMSS(seconds)| - 2..]) < 60
  {
    var mm := PadStart2(NatToDecimal(seconds / 60));
    var ss := PadStart2(NatToDecimal(seconds % 60));
    DecimalBelow100(seconds % 60);
    ColonSplit(mm, ss);
    PaddedRoundTrip(seconds / 60);
    PaddedRoundTrip(seconds % 60);
    assert FormatMMSS(seconds) == mm + ":" + ss;
  }

  /** The text the page shows when no countdown runs is the formatting of zero. */
  lemma ZeroText()
    ensures FormatMMSS(0) == "00:00"
  {
    assert NatToDecimal(0) == "0";
    assert PadStart2("0") == "00";
  }

  // ---------------------------------------------------------------------
  // Payment deadline
  // ---------------------------------------------------------------------

  /** The payment window after the order time: 15 minutes, in milliseconds. */
  const PaymentWindowMs := 15 * 60 * 1000

  /** `dayjs(orderTime).add(15, "minutes").diff(now, "seconds")`: whole seconds, rounded toward zero. */
  function RemainingSeconds(orderTime: int, now: int): (s: int)
    ensures orderTime + PaymentWindowMs - now >= 0 ==>
              s * 1000 <= orderTime + PaymentWindowMs - now < s * 1000 + 1000
    ensures s > 0 <==> orderTime + PaymentWindowMs - now >= 1000
  {
    TruncDiv(orderTime + PaymentWindowMs - now, 1000)
  }

  /** From the order time on, at most 900 seconds remain, so the text is five characters and at most "15:00". */
  lemma RemainingBounded(orderTime: int, now: int)
    requires now >= orderTime && RemainingSeconds(orderTime, now) > 0
    ensures RemainingSeconds(orderTime, now) <= 900
    ensures |FormatMMSS(RemainingSeconds(orderTime, now))| == 5
    ensures ParseMMSS(FormatMMSS(RemainingSeconds(orderTime, now))) <= 900
  {
    FormatRoundTrip(RemainingSeconds(orderTime, now));
  }

  // ---------------------------------------------------------------------
  // Payment-status polling
  // ---------------------------------------------------------------------

  /** `currentTime > 10` stops the poll, so at most this many queries go out. */
  const MaxPolls := 11

  /** Whether the reply to query `k` (from 0) reported `PAY_SUCCESS`; missing replies did not. */
  predicate PaidAt(paid: seq<bool>, k: nat) {
    k < |paid| && paid[k]
  }

  /** How many queries the poll issues: up to and including the first paid reply, at most `MaxPolls`. */
  function PollQueries(paid: seq<bool>): (n: nat)
    ensures 1 <= n <= MaxPolls
    ensures forall j :: 0 <= j < n - 1 ==> !PaidAt(paid, j)
    ensures n < MaxPolls ==> PaidAt(paid, n - 1)
  {
    PollFrom(paid, 0)
  }

  function PollFrom(paid: seq<bool>, i: nat): (n: nat)
    requires i < MaxPolls
    ensures i + 1 <= n <= MaxPolls
    ensures forall j :: i <= j < n - 1 ==> !PaidAt(paid, j)
    ensures n < MaxPolls ==> PaidAt(paid, n - 1)
    decreases MaxPolls - i
  {
    if PaidAt(paid, i) || i + 1 == MaxPolls then i + 1 else PollFrom(paid, i + 1)
  }

  /**
   * `loopPayResult`, tick by tick: each tick first checks the counter, then
   * counts and queries; a paid reply clears the interval. Replies are taken
   * to arrive before the next tick. Returns the queries issued and the ticks
   * that fired (one more than the queries when the counter ran out).
   */
  method LoopPayResult(paid: seq<bool>) returns (queries: nat, ticks: nat)
    ensures queries == PollQueries(paid) && queries <= MaxPolls
    ensures ticks == if PaidAt(paid, queries - 1) then queries else queries + 1
  {
    var currentTime := 0;
    var stopped := false;
    ticks := 0;
    while !stopped
      invariant 0 <= currentTime <= MaxPolls
      invariant forall j :: 0 <= j < currentTime - 1 ==> !PaidAt(paid, j)
      invariant !stopped && currentTime > 0 ==> !PaidAt(paid, currentTime - 1)
      invariant stopped ==> currentTime > 0 && (PaidAt(paid, currentTime - 1) || currentTime == MaxPolls)
      invariant ticks == currentTime + (if stopped && !PaidAt(paid, currentTime - 1) then 1 else 0)
      decreases 2 * (MaxPolls + 1 - currentTime) + (if stopped then 0 else 1)
    {
      ticks := ticks + 1;
      if currentTime > 10 {
        stopped := true;
      } else {
        currentTime := currentTime + 1;
        if PaidAt(paid, currentTime - 1) {
          stopped := true;
        }
      }
    }
    queries := currentTime;
    PollQueriesUnique(paid, queries);
  }

  /** The count is pinned down by "no paid reply before the last query, and a paid one or the cap at it". */
  lemma PollQueriesUnique(paid: seq<bool>, n: nat)
    requires 1 <= n <= MaxPolls
    requires forall j :: 0 <= j < n - 1 ==> !PaidAt(paid, j)
    requires PaidAt(paid, n - 1) || n == MaxPolls
    ensures PollQueries(paid) == n
  {
  }

  // ---------------------------------------------------------------------
  // Ticket detail
  // ---------------------------------------------------------------------

  /** `data.ticket`: an array, or a single ticket. */
  datatype TicketField<T> = TicketArray(items: seq<T>) | SingleTicket(item: T)

  datatype TicketDetail<T> = TicketDetail(ticket: TicketField<T>, ticketList: Option<seq<T>>)

  /** `getTicketDetail`: a ticket that is not an array becomes the one-element `ticketList`. */
  function NormaliseTicketDetail<T>(d: TicketDetail<T>): (r: TicketDetail<T>)
    ensures r.ticket == d.ticket
    ensures d.ticket.SingleTicket? ==> r.ticketList == Some([d.ticket.item])
    ensures d.ticket.TicketArray? ==> r.ticketList == d.ticketList
  {
    if d.ticket.SingleTicket? then d.(ticketList := Some([d.ticket.item])) else d
  }

  /** Normalising twice is normalising once. */
  lemma NormaliseIdempotent<T>(d: TicketDetail<T>)
    ensures NormaliseTicketDetail(NormaliseTicketDetail(d)) == NormaliseTicketDetail(d)
  {
  }

  // ---------------------------------------------------------------------
  // The page
  // ---------------------------------------------------------------------

  class OrderDetailPage {
    var isPurchasing: bool
    /** Remaining seconds. */
    var countdown: int
    var countdownText: string
    var isCountdownActive: bool
    /** The interval handle, `null` when no timer runs. */
    var timer: Option<nat>

    /** Shown state agrees with the count: an active countdown shows its own `MM:SS`. */
    predicate Shows()
      reads this
    {
      countdown >= 0 && countdownText == FormatMMSS(countdown)
    }

    constructor ()
      ensures !isPurchasing && countdown == 0 && countdownText == "00:00"
      ensures !isCountdownActive && timer.None?
      ensures Shows()
    {
      isPurchasing := false;
      countdown, countdownText := 0, "00:00";
      isCountdownActive, timer := false, None;
      ZeroText();
    }

    /** `updateCountdownDisplay` */
    method UpdateCountdownDisplay(seconds: nat)
      modifies this`countdownText
      ensures countdownText == FormatMMSS(seconds)
    {
      countdownText := FormatMMSS(seconds);
    }

    /** `startCountdown`: inactive at zero when the deadline has passed, otherwise running with a timer. */
    method StartCountdown(orderTime: int, now: int, handle: nat)
      modifies this`countdown, this`countdownText, this`isCountdownActive, this`timer
      ensures var rem := RemainingSeconds(orderTime, now);
              && (rem <= 0 ==> !isCountdownActive && countdown == 0 && countdownText == "00:00"
                               && timer == old(timer))
              && (rem > 0 ==> isCountdownActive && countdown == rem && timer == Some(handle))
      ensures Shows()
    {
      var rem := RemainingSeconds(orderTime, now);
      if rem <= 0 {
        isCountdownActive, countdown, countdownText := false, 0, "00:00";
        ZeroText();
        return;
      }
      isCountdownActive, countdown := true, rem;
      UpdateCountdownDisplay(rem);
      timer := Some(handle);
    }

    /** The interval callback of `startCountdown`: stop at the deadline, otherwise refresh. */
    method CountdownTick(orderTime: int, now: int)
      modifies this`countdown, this`countdownText, this`isCountdownActive, this`timer
      ensures var rem := RemainingSeconds(orderTime, now);
              && (rem <= 0 ==> StoppedFrom(old(countdown), old(countdownText), old(isCountdownActive), old(timer)))
              && (rem > 0 ==> countdown == rem && countdownText == FormatMMSS(rem)
                              && isCountdownActive == old(isCountdownActive) && timer == old(timer))
    {
      var rem := RemainingSeconds(orderTime, now);
      if rem <= 0 {
        StopCountdown();
        return;
      }
      countdown := rem;
      UpdateCountdownDisplay(rem);
    }

    /** The state after `stopCountdown`, given the state before. */
    predicate StoppedFrom(c: int, text: string, active: bool, t: Option<nat>)
      reads this
    {
      if t.Some? then timer.None? && !isCountdownActive && countdown == 0 && countdownText == "00:00"
      else timer == t && isCountdownActive == active && countdown == c && countdownText == text
    }

    /** `stopCountdown`: reset only when a timer exists. */
    method StopCountdown()
      modifies this`countdown, this`countdownText, this`isCountdownActive, this`timer
      ensures StoppedFrom(old(countdown), old(countdownText), old(isCountdownActive), old(timer))
      ensures old(Shows()) ==> Shows()
    {
      if timer.Some? {
        timer, isCountdownActive, countdown, countdownText := None, false, 0, "00:00";
        ZeroText();
      }
    }

    /**
     * `confirmPay` up to the payment sheet: the flag goes up, and straight
     * down again when `order.payInfo` cannot be read. There is no check of
     * the flag first.
     */
    method ConfirmPay(payInfoReadable: bool) returns (sheetShown: bool)
      modifies this`isPurchasing
      ensures sheetShown == payInfoReadable
      ensures isPurchasing == payInfoReadable
    {
      isPurchasing := true;
      if !payInfoReadable {
        isPurchasing := false;
        return false;
      }
      return true;
    }

    /** The payment sheet's `complete` callback. */
    method OnPaymentComplete()
      modifies this`isPurchasing
      ensures !isPurchasing
    {
      isPurchasing := false;
    }
  }

  /** The payment sheet's `success` callback starts polling only on `requestPayment:ok`. */
  predicate PollsAfterSuccess(errMsg: string) {
    errMsg == "requestPayment:ok"
  }

  /**
   * The `success` callback of `confirmPay`'s payment sheet: no query unless
   * the sheet reports `requestPayment:ok`, otherwise the bounded poll.
   */
  method OnPaymentSuccess(errMsg: string, paid: seq<bool>) returns (queries: nat)
    ensures queries > 0 <==> PollsAfterSuccess(errMsg)
    ensures PollsAfterSuccess(errMsg) ==> queries == PollQueries(paid) && queries <= MaxPolls
  {
    queries := 0;
    if PollsAfterSuccess(errMsg) {
      var ticks;
      queries, ticks := LoopPayResult(paid);
    }
  }
}
