/**
 * The ticket-select page: SKUs become seat areas classified by stock, the
 * first area may come pre-selected, taps select exactly one area or session,
 * the buy button is guarded, and the sale countdown splits a millisecond
 * difference into days, hours, minutes and seconds.
 */
module TicketSelect {
  import opened Wrappers
  import opened Strings

  // ---------------------------------------------------------------------
  // SKUs and areas
  // ---------------------------------------------------------------------

  /** A SKU as the match-info reply lists it; `id` is already `id.toString()`. */
  datatype Sku = Sku(
    id: string,
    skuType: string,
    skuName: Option<string>,
    area: Option<string>,
    price: int,        // cents
    stockTicket: int)

  datatype AreaStatus = Available | SoldOut | OutOfStock | Full

  datatype AreaItem = AreaItem(id: string, name: string, price: int, status: AreaStatus, selected: bool)

  datatype SessionItem = SessionItem(id: string, name: string, date: string, time: string, selected: bool)

  predicate IsSaleTicket(sku: Sku) {
    sku.skuType == "SALE_TICKET"
  }

  /** `skuList.filter(sku => sku.skuType === "SALE_TICKET")` */
  function SaleSkus(skus: seq<Sku>): (r: seq<Sku>)
    ensures |r| <= |skus|
    ensures forall i :: 0 <= i < |r| ==> IsSaleTicket(r[i])
  {
    if skus == [] then []
    else if IsSaleTicket(skus[0]) then [skus[0]] + SaleSkus(skus[1..])
    else SaleSkus(skus[1..])
  }

  /** The filter distributes over concatenation, so the kept SKUs keep their order. */
  lemma {:induction false} SaleSkusAppend(a: seq<Sku>, b: seq<Sku>)
    ensures SaleSkus(a + b) == SaleSkus(a) + SaleSkus(b)
  {
    if a == [] {
      assert a + b == b;
    } else {
      assert (a + b)[0] == a[0] && (a + b)[1..] == a[1..] + b;
      SaleSkusAppend(a[1..], b);
    }
  }

  /** A SKU is kept exactly when it is in the input and is a sale ticket. */
  lemma {:induction false} SaleSkusMembers(skus: seq<Sku>, x: Sku)
    ensures x in SaleSkus(skus) <==> x in skus && IsSaleTicket(x)
  {
    if skus != [] {
      SaleSkusMembers(skus[1..], x);
      assert skus == [skus[0]] + skus[1..];
    }
  }

  /** The stock classification; `"full"` is declared by the page but never assigned. */
  function StockStatus(stock: int): (st: AreaStatus)
    ensures st != Full
    ensures st == SoldOut <==> stock == 0
    ensures st == OutOfStock <==> stock != 0 && stock < 10
    ensures st == Available <==> stock >= 10
  {
    if stock == 0 then SoldOut
    else if stock < 10 then OutOfStock
    else Available
  }

  /** `sku.skuName || sku.area || \`区域${index + 1}\`` */
  function AreaName(sku: Sku, index: nat): string {
    OrString(sku.skuName, OrString(sku.area, "区域" + NatToDecimal(index + 1)))
  }

  function ToArea(sku: Sku, index: nat): AreaItem {
    var st := StockStatus(sku.stockTicket);
    AreaItem(sku.id, AreaName(sku, index), sku.price, st, index == 0 && st == Available)
  }

  /** `processSkuData`: keep the sale tickets, then turn the k-th of them into an area. */
  function ProcessSkuData(skus: seq<Sku>): (r: seq<AreaItem>)
    ensures |r| == |SaleSkus(skus)| <= |skus|
    ensures forall k :: 0 <= k < |r| ==>
              var sku := SaleSkus(skus)[k];
              r[k].id == sku.id && r[k].price == sku.price && r[k].status == StockStatus(sku.stockTicket)
              && r[k].name == AreaName(sku, k)
    ensures forall k :: 0 <= k < |r| ==> (r[k].selected <==> k == 0 && r[k].status == Available)
  {
    var sale := SaleSkus(skus);
    seq(|sale|, k requires 0 <= k < |sale| => ToArea(sale[k], k))
  }

  /** The name falls back from the SKU name to the area to `区域k` (k counted from 1 after filtering). */
  lemma AreaNameFallback(sku: Sku, index: nat)
    ensures sku.skuName.Some? && sku.skuName.value != "" ==> AreaName(sku, index) == sku.skuName.value
    ensures (sku.skuName.None? || sku.skuName.value == "") && sku.area.Some? && sku.area.value != ""
            ==> AreaName(sku, index) == sku.area.value
    ensures (sku.skuName.None? || sku.skuName.value == "") && (sku.area.None? || sku.area.value == "")
            ==> AreaName(sku, index)[..|"区域"|] == "区域"
                && AllDigits(AreaName(sku, index)[|"区域"|..])
                && DecimalValue(AreaName(sku, index)[|"区域"|..]) == index + 1
  {
    var digits := NatToDecimal(index + 1);
    DecimalRoundTrip(index + 1);
    assert ("区域" + digits)[|"区域"|..] == digits;
  }

  // ---------------------------------------------------------------------
  // Selection
  // ---------------------------------------------------------------------

  /** Index of the first available area, or `|areas|` when there is none. */
  function FirstAvailableIndex(areas: seq<AreaItem>): (k: nat)
    ensures k <= |areas|
    ensures forall i :: 0 <= i < k ==> areas[i].status != Available
    ensures k < |areas| ==> areas[k].status == Available
  {
    if areas == [] then 0
    else if areas[0].status == Available then 0
    else 1 + FirstAvailableIndex(areas[1..])
  }

  /** `areaList.find(item => item.status === "available") || null` */
  function DefaultArea(areas: seq<AreaItem>): Option<AreaItem> {
    var k := FirstAvailableIndex(areas);
    if k < |areas| then Some(areas[k]) else None
  }

  /** Index of the first selected area, or `|areas|`. */
  function FirstSelectedIndex(areas: seq<AreaItem>): (k: nat)
    ensures k <= |areas|
    ensures forall i :: 0 <= i < k ==> !areas[i].selected
    ensures k < |areas| ==> areas[k].selected
  {
    if areas == [] then 0
    else if areas[0].selected then 0
    else 1 + FirstSelectedIndex(areas[1..])
  }

  /** `areaList.find(item => item.selected) || null` */
  function SelectedArea(areas: seq<AreaItem>): Option<AreaItem> {
    var k := FirstSelectedIndex(areas);
    if k < |areas| then Some(areas[k]) else None
  }

  /** Index of the first selected session, or `|sessions|`. */
  function FirstSelectedSessionIndex(sessions: seq<SessionItem>): (k: nat)
    ensures k <= |sessions|
    ensures forall i :: 0 <= i < k ==> !sessions[i].selected
    ensures k < |sessions| ==> sessions[k].selected
  {
    if sessions == [] then 0
    else if sessions[0].selected then 0
    else 1 + FirstSelectedSessionIndex(sessions[1..])
  }

  function SelectedSession(sessions: seq<SessionItem>): Option<SessionItem> {
    var k := FirstSelectedSessionIndex(sessions);
    if k < |sessions| then Some(sessions[k]) else None
  }

  /** `areaList.map(item => ({ ...item, selected: item.id === id }))` */
  function SelectArea(areas: seq<AreaItem>, id: string): (r: seq<AreaItem>)
    ensures |r| == |areas|
    ensures forall i :: 0 <= i < |r| ==> r[i] == areas[i].(selected := areas[i].id == id)
  {
    seq(|areas|, i requires 0 <= i < |areas| => areas[i].(selected := areas[i].id == id))
  }

  function SelectSession(sessions: seq<SessionItem>, id: string): (r: seq<SessionItem>)
    ensures |r| == |sessions|
    ensures forall i :: 0 <= i < |r| ==> r[i] == sessions[i].(selected := sessions[i].id == id)
  {
    seq(|sessions|, i requires 0 <= i < |sessions| => sessions[i].(selected := sessions[i].id == id))
  }

  predicate UniqueAreaIds(areas: seq<AreaItem>) {
    forall i, j :: 0 <= i < j < |areas| ==> areas[i].id != areas[j].id
  }

  predicate UniqueSessionIds(sessions: seq<SessionItem>) {
    forall i, j :: 0 <= i < j < |sessions| ==> sessions[i].id != sessions[j].id
  }

  /** Tapping the area at `k` (ids unique) selects it and nothing else, and `find` returns it. */
  lemma ExclusiveAreaSelection(areas: seq<AreaItem>, k: nat)
    requires UniqueAreaIds(areas) && k < |areas|
    ensures var r := SelectArea(areas, areas[k].id);
            (forall i :: 0 <= i < |r| ==> (r[i].selected <==> i == k))
            && SelectedArea(r) == Some(areas[k].(selected := true))
  {
    var r := SelectArea(areas, areas[k].id);
    assert r[k].selected;
    assert FirstSelectedIndex(r) == k;
  }

  /** A tapped id that matches no area leaves nothing selected. */
  lemma UnknownAreaSelectsNothing(areas: seq<AreaItem>, id: string)
    requires forall i :: 0 <= i < |areas| ==> areas[i].id != id
    ensures SelectedArea(SelectArea(areas, id)) == None
  {
  }

  /** The same for sessions: the tapped one, and only it, is selected. */
  lemma ExclusiveSessionSelection(sessions: seq<SessionItem>, k: nat)
    requires UniqueSessionIds(sessions) && k < |sessions|
    ensures var r := SelectSession(sessions, sessions[k].id);
            (forall i :: 0 <= i < |r| ==> (r[i].selected <==> i == k))
            && SelectedSession(r) == Some(sessions[k].(selected := true))
  {
    var r := SelectSession(sessions, sessions[k].id);
    assert r[k].selected;
    assert FirstSelectedSessionIndex(r) == k;
  }

  /** `(+selectedArea?.price / 100) || 0`: yuan from cents, 0 when nothing is selected. */
  function AreaPrice(area: Option<AreaItem>): real {
    if area.Some? then area.value.price as real / 100.0 else 0.0
  }

  /** The checks of `onBuyNow`. */
  predicate CanBuy(area: Option<AreaItem>) {
    area.Some? && area.value.selected && area.value.status != SoldOut
  }

  /**
   * After loading, buying is possible exactly when the first area is
   * available: when the first available area comes later, the default
   * selection points at an area whose `selected` is false.
   */
  lemma DefaultSelectionBuyable(skus: seq<Sku>)
    ensures var areas := ProcessSkuData(skus);
            CanBuy(DefaultArea(areas)) <==> |areas| > 0 && areas[0].status == Available
  {
    var areas := ProcessSkuData(skus);
    if |areas| > 0 && areas[0].status == Available {
      assert FirstAvailableIndex(areas) == 0;
    }
  }

  // ---------------------------------------------------------------------
  // Sale countdown
  // ---------------------------------------------------------------------

  const MsPerSecond := 1000
  const MsPerMinute := 60 * MsPerSecond
  const MsPerHour := 60 * MsPerMinute
  const MsPerDay := 24 * MsPerHour

  datatype Countdown = Countdown(days: int, hours: int, minutes: int, seconds: int)

  const ZeroCountdown := Countdown(0, 0, 0, 0)

  /** The milliseconds a countdown stands for. */
  function Millis(c: Countdown): int {
    c.days * MsPerDay + c.hours * MsPerHour + c.minutes * MsPerMinute + c.seconds * MsPerSecond
  }

  /** Days, hours, minutes and seconds of a positive millisecond difference, each unit floored. */
  function SplitCountdown(diff: int): (c: Countdown)
    requires diff > 0
    ensures c.days >= 0 && 0 <= c.hours < 24 && 0 <= c.minutes < 60 && 0 <= c.seconds < 60
    ensures Millis(c) <= diff < Millis(c) + MsPerSecond
  {
    var days := diff / MsPerDay;
    var hours := (diff % MsPerDay) / MsPerHour;
    var minutes := (diff % MsPerHour) / MsPerMinute;
    var seconds := (diff % MsPerMinute) / MsPerSecond;
    SplitFacts(diff);
    Countdown(days, hours, minutes, seconds)
  }

  /** A positive multiple of a positive number is at least that number. */
  lemma {:induction false} MulAtLeast(k: int, b: int)
    ensures k >= 1 && b > 0 ==> k * b >= b
    decreases if k > 0 then k else 0
  {
    if k > 1 {
      MulAtLeast(k - 1, b);
      assert k * b == (k - 1) * b + b;
    }
  }

  /** In a fixed base the high and low digits of a number are unique. */
  lemma PlaceValueUnique(hi1: int, lo1: int, hi2: int, lo2: int, base: int)
    requires base > 0 && 0 <= lo1 < base && 0 <= lo2 < base
    requires hi1 * base + lo1 == hi2 * base + lo2
    ensures hi1 == hi2 && lo1 == lo2
  {
    assert (hi1 - hi2) * base == lo2 - lo1;
    assert (hi2 - hi1) * base == lo1 - lo2;
    MulAtLeast(hi1 - hi2, base);
    MulAtLeast(hi2 - hi1, base);
  }

  /** `x % (a * b) % b == x % b` */
  lemma ModOfMod(x: int, a: int, b: int)
    requires x >= 0 && a > 0 && b > 0
    ensures x % (a * b) % b == x % b
  {
    var r := x % (a * b);
    assert x == x / (a * b) * (a * b) + r;
    assert r == r / b * b + r % b;
    assert x == (x / (a * b) * a + r / b) * b + r % b;
    assert x == x / b * b + x % b;
    PlaceValueUnique(x / (a * b) * a + r / b, r % b, x / b, x % b, b);
  }

  lemma SplitFacts(diff: int)
    requires diff > 0
    ensures var h := (diff % MsPerDay) / MsPerHour;
            var m := (diff % MsPerHour) / MsPerMinute;
            var s := (diff % MsPerMinute) / MsPerSecond;
            0 <= h < 24 && 0 <= m < 60 && 0 <= s < 60
            && diff / MsPerDay * MsPerDay + h * MsPerHour + m * MsPerMinute + s * MsPerSecond <= diff
            < diff / MsPerDay * MsPerDay + h * MsPerHour + m * MsPerMinute + s * MsPerSecond + MsPerSecond
  {
    ModOfMod(diff, 24, MsPerHour);
    ModOfMod(diff, 60, MsPerMinute);
  }

  /** Two countdowns within the unit bounds that cover the same second are the same countdown. */
  lemma CountdownUnique(c: Countdown, d: Countdown, diff: int)
    requires c.days >= 0 && 0 <= c.hours < 24 && 0 <= c.minutes < 60 && 0 <= c.seconds < 60
    requires d.days >= 0 && 0 <= d.hours < 24 && 0 <= d.minutes < 60 && 0 <= d.seconds < 60
    requires Millis(c) <= diff < Millis(c) + MsPerSecond
    requires Millis(d) <= diff < Millis(d) + MsPerSecond
    ensures c == d
  {
    var hc, hd := c.days * 24 + c.hours, d.days * 24 + d.hours;
    var mc, md := hc * 60 + c.minutes, hd * 60 + d.minutes;
    var sc, sd := mc * 60 + c.seconds, md * 60 + d.seconds;
    assert Millis(c) == sc * 1000 && Millis(d) == sd * 1000;
    PlaceValueUnique(sc, diff - sc * 1000, sd, diff - sd * 1000, 1000);
    PlaceValueUnique(mc, c.seconds, md, d.seconds, 60);
    PlaceValueUnique(hc, c.minutes, hd, d.minutes, 60);
    PlaceValueUnique(c.days, c.hours, d.days, d.hours, 24);
  }

  // ---------------------------------------------------------------------
  // The page
  // ---------------------------------------------------------------------

  /** What `onBuyNow` did. */
  datatype BuyOutcome = ChooseArea | AreaUnavailable | GoToConfirm(skuId: string, price: real)

  class TicketSelectPage {
    var loading: bool
    var areaList: seq<AreaItem>
    var selectedArea: Option<AreaItem>
    var sessionList: seq<SessionItem>
    var selectedSession: Option<SessionItem>
    var totalPrice: real
    /** `matchInfo?.startSaleTime` as epoch milliseconds. */
    var startSaleTime: Option<int>
    var countdown: Countdown
    var isCountdownActive: bool
    /** The interval handle, `null` when no timer runs. */
    var countdownTimer: Option<nat>

    constructor ()
      ensures loading && areaList == [] && selectedArea.None? && sessionList == []
      ensures selectedSession.None? && totalPrice == 0.0 && startSaleTime.None?
      ensures countdown == ZeroCountdown && !isCountdownActive && countdownTimer.None?
    {
      loading := true;
      areaList, selectedArea := [], None;
      sessionList, selectedSession := [], None;
      totalPrice := 0.0;
      startSaleTime := None;
      countdown, isCountdownActive, countdownTimer := ZeroCountdown, false, None;
    }

    /**
     * `loadMatchData` with a successful reply: areas from the SKUs, the first
     * session and the first available area as defaults, then the countdown.
     * `now` is the clock, `timer` the handle `setInterval` would return.
     */
    method LoadMatchData(skus: seq<Sku>, sessions: seq<SessionItem>, saleStart: Option<int>, now: int, timer: nat)
      modifies this
      ensures !loading
      ensures areaList == ProcessSkuData(skus) && sessionList == sessions
      ensures selectedSession == (if |sessions| > 0 then Some(sessions[0]) else None)
      ensures selectedArea == DefaultArea(areaList) && totalPrice == AreaPrice(selectedArea)
      ensures startSaleTime == saleStart
      ensures CountdownAfterStart(old(countdown), old(isCountdownActive), old(countdownTimer), saleStart, now, timer)
              == (countdown, isCountdownActive, countdownTimer)
    {
      var areas := ProcessSkuData(skus);
      areaList := areas;
      sessionList := sessions;
      selectedSession := if |sessions| > 0 then Some(sessions[0]) else None;
      selectedArea := DefaultArea(areas);
      totalPrice := AreaPrice(selectedArea);
      startSaleTime := saleStart;
      loading := false;
      StartCountdown(now, timer);
    }

    /** `loadMatchData` when the reply is not a success: only the spinner stops. */
    method LoadMatchDataFailed()
      modifies this`loading
      ensures !loading
    {
      loading := false;
    }

    /** `onSessionSelect`: exclusive selection, no rejection. */
    method OnSessionSelect(id: string)
      modifies this`sessionList, this`selectedSession
      ensures sessionList == SelectSession(old(sessionList), id)
      ensures selectedSession == SelectedSession(sessionList)
    {
      var sessions := SelectSession(sessionList, id);
      sessionList := sessions;
      selectedSession := SelectedSession(sessions);
    }

    /** `onAreaSelect`: exclusive selection, turned away when the tapped area is sold out. */
    method OnAreaSelect(id: string) returns (accepted: bool)
      modifies this`areaList, this`selectedArea, this`totalPrice
      ensures var sel := SelectedArea(SelectArea(old(areaList), id));
              accepted <==> !(sel.Some? && sel.value.status == SoldOut)
      ensures accepted ==> areaList == SelectArea(old(areaList), id)
                           && selectedArea == SelectedArea(areaList)
                           && totalPrice == AreaPrice(selectedArea)
      ensures !accepted ==> areaList == old(areaList) && selectedArea == old(selectedArea)
                            && totalPrice == old(totalPrice)
    {
      var areas := SelectArea(areaList, id);
      var sel := SelectedArea(areas);
      if sel.Some? && sel.value.status == SoldOut {
        return false;
      }
      areaList, selectedArea, totalPrice := areas, sel, AreaPrice(sel);
      return true;
    }

    /** `onBuyNow`: go to order confirmation only with a selected area that is not sold out. */
    method OnBuyNow() returns (r: BuyOutcome)
      ensures r.GoToConfirm? <==> CanBuy(selectedArea)
      ensures r.GoToConfirm? ==> r.skuId == selectedArea.value.id && r.price == totalPrice
      ensures r == ChooseArea <==> selectedArea.None? || !selectedArea.value.selected
      ensures r == AreaUnavailable <==>
                selectedArea.Some? && selectedArea.value.selected && selectedArea.value.status == SoldOut
    {
      if selectedArea.None? || !selectedArea.value.selected {
        return ChooseArea;
      }
      if selectedArea.value.status == SoldOut {
        return AreaUnavailable;
      }
      return GoToConfirm(selectedArea.value.id, totalPrice);
    }

    /** `startCountdown`: only before the sale starts, and then with a timer. */
    method StartCountdown(now: int, timer: nat)
      modifies this`countdown, this`isCountdownActive, this`countdownTimer
      ensures (countdown, isCountdownActive, countdownTimer)
              == CountdownAfterStart(old(countdown), old(isCountdownActive), old(countdownTimer),
                                     startSaleTime, now, timer)
    {
      if startSaleTime.None? {
        return;
      }
      if now >= startSaleTime.value {
        isCountdownActive := false;
        return;
      }
      isCountdownActive := true;
      UpdateCountdown(now);
      countdownTimer := Some(timer);
    }

    /** `updateCountdown`: the split while time remains; zero, inactive and no timer once it has run out. */
    method UpdateCountdown(now: int)
      modifies this`countdown, this`isCountdownActive, this`countdownTimer
      ensures startSaleTime.None? ==>
                countdown == old(countdown) && isCountdownActive == old(isCountdownActive)
                && countdownTimer == old(countdownTimer)
      ensures startSaleTime.Some? && startSaleTime.value - now > 0 ==>
                countdown == SplitCountdown(startSaleTime.value - now)
                && isCountdownActive == old(isCountdownActive) && countdownTimer == old(countdownTimer)
      ensures startSaleTime.Some? && startSaleTime.value - now <= 0 ==>
                countdown == ZeroCountdown && !isCountdownActive && countdownTimer.None?
    {
      if startSaleTime.None? {
        return;
      }
      var diff := startSaleTime.value - now;
      if diff <= 0 {
        isCountdownActive := false;
        countdown := ZeroCountdown;
        if countdownTimer.Some? {
          countdownTimer := None;
        }
        return;
      }
      countdown := SplitCountdown(diff);
    }
  }

  /** The countdown state `startCountdown` leaves behind. */
  function CountdownAfterStart(c: Countdown, active: bool, timer: Option<nat>,
                               saleStart: Option<int>, now: int, handle: nat): (r: (Countdown, bool, Option<nat>))
    ensures saleStart.Some? && now < saleStart.value ==>
              r.1 && r.2 == Some(handle) && r.0 == SplitCountdown(saleStart.value - now)
              && Millis(r.0) <= saleStart.value - now < Millis(r.0) + MsPerSecond
    ensures saleStart.Some? && now >= saleStart.value ==> !r.1 && r.0 == c && r.2 == timer
    ensures saleStart.None? ==> r == (c, active, timer)
  {
    if saleStart.None? then (c, active, timer)
    else if now >= saleStart.value then (c, false, timer)
    else (SplitCountdown(saleStart.value - now), true, Some(handle))
  }
}
