/** The arithmetic of occupying a room: how many nights are billed, and the discounted
    total rounded to the cent the way Decimal.quantize(Decimal("0.01")) rounds under the
    default context (ROUND_HALF_EVEN).

    Money is in cents. A discount is in hundredths of a percent (the form accepts steps
    of 0.01 %), so 10 % is 1000 and the undiscounted factor 100.00 % is 10000. */
module Pricing {
  import opened Common

  const MicrosPerSecond: int := 1_000_000
  const SecondsPerDay: int := 86_400
  const MicrosPerDay: int := 86_400_000_000

  /** 100.00 % in hundredths of a percent. */
  const WholePercent: int := 10_000

  /** The quotient n / d rounded to the nearest integer, ties to the even one. */
  function RoundHalfEven(n: int, d: int): (q: int)
    requires d > 0
    ensures -d <= 2 * (n - q * d) <= d
    ensures (2 * (n - q * d) == d || 2 * (n - q * d) == -d) ==> q % 2 == 0
  {
    var q0 := n / d;
    var r := n % d;
    assert n == q0 * d + r;
    assert (q0 + 1) * d == q0 * d + d;
    if 2 * r < d then q0
    else if 2 * r > d then q0 + 1
    else if q0 % 2 == 0 then q0
    else q0 + 1
  }

  /** Nights billed for a stay from `checkIn` to the planned `checkOut`: the whole days of
      the difference, one more if a whole second is left over, and at least one.
      Python's timedelta keeps days floored and seconds in [0, 86400), so a difference
      under a second is ignored. */
  function Nights(checkIn: Time, checkOut: Time): (n: int)
    ensures n >= 1
    ensures var secs := (checkOut - checkIn) / MicrosPerSecond;
            && (secs <= 0 ==> n == 1)
            && (secs > 0 ==> (n - 1) * SecondsPerDay < secs <= n * SecondsPerDay)
  {
    var delta := checkOut - checkIn;
    var days := delta / MicrosPerDay;
    var seconds := (delta % MicrosPerDay) / MicrosPerSecond;
    assert (checkOut - checkIn) / MicrosPerSecond == days * SecondsPerDay + seconds by {
      var rem := delta % MicrosPerDay;
      assert delta == days * SecondsPerDay * MicrosPerSecond + rem;
      assert rem == (rem / MicrosPerSecond) * MicrosPerSecond + rem % MicrosPerSecond;
    }
    var noches := days + (if seconds > 0 then 1 else 0);
    if noches <= 0 then 1 else noches
  }

  /** Undiscounted room cost: nightly price times nights. */
  function RoomCost(nightlyPrice: int, nights: int): (cost: int)
    ensures nightlyPrice >= 0 && nights >= 0 ==> cost >= 0
    ensures nightlyPrice >= 0 && nights >= 1 ==> cost >= nightlyPrice
  {
    assert nightlyPrice * nights == nightlyPrice * (nights - 1) + nightlyPrice;
    nightlyPrice * nights
  }

  /** Total of a stay: the room cost times (100 - discount) / 100, rounded to the cent,
      ties to even. */
  function DiscountedCost(roomCost: int, discount: int): (total: int)
    ensures var exact := roomCost * (WholePercent - discount);
            && -WholePercent <= 2 * (exact - total * WholePercent) <= WholePercent
            && ((2 * (exact - total * WholePercent) == WholePercent
                 || 2 * (exact - total * WholePercent) == -WholePercent) ==> total % 2 == 0)
  {
    RoundHalfEven(roomCost * (WholePercent - discount), WholePercent)
  }

  /** The contract of DiscountedCost pins the total down: no other integer is as close
      to the exact value with ties broken to even. */
  lemma DiscountedCostUnique(roomCost: int, discount: int, t: int)
    requires var exact := roomCost * (WholePercent - discount);
             && -WholePercent <= 2 * (exact - t * WholePercent) <= WholePercent
             && ((2 * (exact - t * WholePercent) == WholePercent
                  || 2 * (exact - t * WholePercent) == -WholePercent) ==> t % 2 == 0)
    ensures t == DiscountedCost(roomCost, discount)
  {
  }

  lemma NoDiscountKeepsCost(roomCost: int)
    ensures DiscountedCost(roomCost, 0) == roomCost
  {
    DiscountedCostUnique(roomCost, 0, roomCost);
  }

  lemma FullDiscountIsFree(roomCost: int)
    ensures DiscountedCost(roomCost, WholePercent) == 0
  {
    DiscountedCostUnique(roomCost, WholePercent, 0);
  }

  /** A discount between 0 % and 100 % keeps the total between zero and the room cost. */
  lemma DiscountWithinCost(roomCost: int, discount: int)
    requires roomCost >= 0 && 0 <= discount <= WholePercent
    ensures 0 <= DiscountedCost(roomCost, discount) <= roomCost
  {
    var exact := roomCost * (WholePercent - discount);
    assert 0 <= exact <= roomCost * WholePercent by {
      assert roomCost * (WholePercent - discount) == roomCost * WholePercent - roomCost * discount;
    }
  }

  /** Nothing stops a discount above 100 %: the total is then never positive, and it is
      negative as soon as the overshoot exceeds half a cent. */
  lemma OverDiscountGoesNegative(roomCost: int, discount: int)
    requires roomCost >= 0 && discount > WholePercent
    ensures DiscountedCost(roomCost, discount) <= 0
    ensures roomCost * (discount - WholePercent) > WholePercent / 2 ==> DiscountedCost(roomCost, discount) < 0
  {
    assert roomCost * (WholePercent - discount) == -(roomCost * (discount - WholePercent));
    assert roomCost * (discount - WholePercent) >= 0;
  }

  /** A stay of exactly two days at 100.00 a night with 10 % off: 2 nights, room cost
      200.00, total 180.00. */
  lemma TwoNightsTenPercentOff(now: Time)
    ensures Nights(now, now + 2 * MicrosPerDay) == 2
    ensures RoomCost(100_00, 2) == 200_00
    ensures DiscountedCost(200_00, 1000) == 180_00
  {
    DiscountedCostUnique(200_00, 1000, 180_00);
  }
}
