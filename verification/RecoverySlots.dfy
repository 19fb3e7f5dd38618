/** The schedule slots the recovery timer watches. Times are seconds since
    1970-01-01T00:00Z; the local day runs at a fixed offset of three hours west. */
module RecoverySlots {
  import opened Sequences

  datatype Workflow = Ops | Export | Retired | Unlisted(name: string)

  datatype Slot = Slot(workflow: Workflow, at: int)

  const MIN_AGE := 20 * 60
  const MAX_AGE := 80 * 60
  const DAY := 24 * 60 * 60
  const WEST := 3 * 60 * 60
  const HALF_PAST_THREE := 3 * 3600 + 30 * 60
  const HALF_PAST_EIGHT := 8 * 3600 + 30 * 60
  const EIGHT := 8 * 3600

  function LocalDay(t: int): int {
    (t - WEST) / DAY
  }

  function LocalSecond(t: int): int {
    (t - WEST) % DAY
  }

  /** Monday is 0; day 0 of the epoch was a Thursday. */
  function Weekday(day: int): int {
    (day + 3) % 7
  }

  /** The first day of 1970 was a Thursday, and the days go round. */
  lemma WeekdayMeans(day: int)
    ensures Weekday(0) == 3 && Weekday(day + 1) == if Weekday(day) == 6 then 0 else Weekday(day) + 1
    ensures 0 <= Weekday(day) <= 6
  {
  }

  function At(day: int, second: int): int {
    day * DAY + second + WEST
  }

  /** What `validate_slot` accepts: the workflow runs at that local time of day. */
  predicate ValidSlot(s: Slot) {
    match s.workflow
    case Ops => LocalSecond(s.at) == HALF_PAST_THREE || LocalSecond(s.at) == HALF_PAST_EIGHT
    case Export => LocalSecond(s.at) == EIGHT && Weekday(LocalDay(s.at)) < 5
    case _ => false
  }

  predicate InWindow(s: Slot, now: int) {
    MIN_AGE <= now - s.at <= MAX_AGE
  }

  lemma AtFields(day: int, second: int)
    requires 0 <= second < DAY
    ensures LocalDay(At(day, second)) == day && LocalSecond(At(day, second)) == second
  {
  }

  /** A slot in the window started today or yesterday, local time. */
  lemma WindowSpansTwoDays(s: Slot, now: int)
    requires InWindow(s, now)
    ensures LocalDay(s.at) == LocalDay(now) || LocalDay(s.at) == LocalDay(now) - 1
    ensures s.at == At(LocalDay(s.at), LocalSecond(s.at))
  {
  }

  predicate DueOn(s: Slot, now: int, day: int) {
    ValidSlot(s) && InWindow(s, now) && LocalDay(s.at) == day
  }

  /** The slots of one local day, by their starting times. */
  lemma DaySlots(s: Slot, day: int)
    ensures ValidSlot(s) && LocalDay(s.at) == day <==>
            || s == Slot(Ops, At(day, 210 * 60))
            || s == Slot(Ops, At(day, 510 * 60))
            || (s == Slot(Export, At(day, 480 * 60)) && Weekday(day) < 5)
  {
    AtFields(day, HALF_PAST_THREE);
    AtFields(day, HALF_PAST_EIGHT);
    AtFields(day, EIGHT);
  }

  /** The body of the loop of `slots` over one local day. */
  method SlotsOfDay(now: int, day: int) returns (found: seq<Slot>)
    ensures forall s :: s in found <==> DueOn(s, now, day)
    ensures Distinct(found)
  {
    found := [];
    var times := [HALF_PAST_THREE, HALF_PAST_EIGHT];
    for i := 0 to 2
      invariant Distinct(found)
      invariant forall s :: s in found ==> s.workflow == Ops
      invariant forall j :: 0 <= j < 2 ==>
        (Slot(Ops, At(day, times[j])) in found <==> j < i && InWindow(Slot(Ops, At(day, times[j])), now))
      invariant forall s :: s in found ==> s.at == At(day, times[0]) || s.at == At(day, times[1])
    {
      var slot := Slot(Ops, At(day, times[i]));
      if InWindow(slot, now) {
        found := found + [slot];
      }
    }
    var slot := Slot(Export, At(day, EIGHT));
    if Weekday(day) < 5 && InWindow(slot, now) {
      found := found + [slot];
    }
    forall s ensures s in found <==> DueOn(s, now, day) {
      DaySlots(s, day);
      assert times[0] == HALF_PAST_THREE && times[1] == HALF_PAST_EIGHT;
    }
  }

  /** `slots`: exactly the valid slots aged 20 to 80 minutes, each once. */
  method Slots(now: int) returns (found: seq<Slot>)
    ensures forall s :: s in found <==> ValidSlot(s) && InWindow(s, now)
    ensures Distinct(found)
  {
    found := [];
    var today := LocalDay(now);
    for offset := 0 to 2
      invariant Distinct(found)
      invariant forall s :: s in found <==>
        (exists d :: today - offset < d <= today && DueOn(s, now, d))
    {
      var more := SlotsOfDay(now, today - offset);
      DistinctAppend(found, more);
      found := found + more;
    }
    forall s | ValidSlot(s) && InWindow(s, now)
      ensures s in found
    {
      WindowSpansTwoDays(s, now);
      assert DueOn(s, now, LocalDay(s.at));
    }
  }

  /** A run of the timer: its times never go back and leave no gap above `gap`. */
  predicate Timer(ticks: seq<int>, gap: int) {
    && |ticks| > 0
    && forall i :: 0 < i < |ticks| ==> ticks[i - 1] <= ticks[i] <= ticks[i - 1] + gap
  }

  /** Some tick finds the slot inside its window. */
  ghost predicate Seen(s: Slot, ticks: seq<int>) {
    exists i :: 0 <= i < |ticks| && InWindow(s, ticks[i])
  }

  lemma {:induction false} ShortGapsSee(s: Slot, ticks: seq<int>, gap: int)
    requires gap <= MAX_AGE - MIN_AGE + 1 && Timer(ticks, gap)
    requires ticks[0] <= s.at + MAX_AGE && s.at + MIN_AGE <= ticks[|ticks| - 1]
    ensures Seen(s, ticks)
  {
    if s.at + MIN_AGE <= ticks[0] {
      assert InWindow(s, ticks[0]);
    } else {
      var rest := ticks[1..];
      assert ticks[0] <= ticks[1] <= ticks[0] + gap;
      assert forall i :: 0 < i < |rest| ==> rest[i - 1] == ticks[i] && rest[i] == ticks[i + 1];
      ShortGapsSee(s, rest, gap);
      var i :| 0 <= i < |rest| && InWindow(s, rest[i]);
      assert InWindow(s, ticks[i + 1]);
    }
  }

  /** No slot can fall between two ticks exactly when the gap between the
      whole-second stamps stays at or below the length of the window plus the
      one second that truncating the clock can add. */
  lemma NoSlotMissedIffGapFits(s: Slot, gap: nat)
    ensures gap <= 60 * 60 + 1 <==>
            forall ticks: seq<int> ::
              Timer(ticks, gap) && ticks[0] <= s.at + MAX_AGE && s.at + MIN_AGE <= ticks[|ticks| - 1]
              ==> Seen(s, ticks)
  {
    if gap <= MAX_AGE - MIN_AGE + 1 {
      forall ticks: seq<int> |
        Timer(ticks, gap) && ticks[0] <= s.at + MAX_AGE && s.at + MIN_AGE <= ticks[|ticks| - 1]
        ensures Seen(s, ticks)
      {
        ShortGapsSee(s, ticks, gap);
      }
    } else {
      var early := s.at + MIN_AGE - 1;
      var ticks := [early, early + gap];
      assert Timer(ticks, gap) && !Seen(s, ticks);
    }
  }
}
