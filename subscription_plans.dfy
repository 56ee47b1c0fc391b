/** The subscription plans page: choosing custom delivery days and the
    price of the custom plan. */
module SubscriptionPlans {
  import Seqs

  /** The day ids the delivery-day selector offers. */
  const WeekDays: set<string> :=
    {"monday", "tuesday", "wednesday", "thursday", "friday", "saturday", "sunday"}

  /** The custom plan's price per delivery. */
  const PricePerDelivery: int := 55

  function NotDay(day: string): string -> bool {
    (d: string) => d != day
  }

  /** `handleDayToggle`: a selected day is dropped (every occurrence), an
      unselected one is appended. */
  function Toggled(days: seq<string>, day: string): (r: seq<string>)
    ensures day in days ==> day !in r && |r| < |days|
    ensures day !in days ==> r == days + [day]
  {
    if day in days then
      var r := Seqs.Filter(days, NotDay(day));
      assert day !in r;
      assert |r| < |days| by {
        var k :| 0 <= k < |days| && days[k] == day;
        assert days == days[..k] + [day] + days[k+1..];
        Seqs.FilterAppend(days[..k] + [day], days[k+1..], NotDay(day));
        Seqs.FilterAppend(days[..k], [day], NotDay(day));
        assert Seqs.Filter([day], NotDay(day)) == [];
      }
      r
    else days + [day]
  }

  /** Toggling flips the membership of `day` and of nothing else. */
  lemma ToggleFlipsOnlyThatDay(days: seq<string>, day: string, other: string)
    ensures day in Toggled(days, day) <==> day !in days
    ensures other != day ==> (other in Toggled(days, day) <==> other in days)
  {
    if day in days && other != day && other in days {
      var k :| 0 <= k < |days| && days[k] == other;
    }
  }

  /** The other days keep their relative order. */
  lemma ToggleKeepsOthersInOrder(days: seq<string>, day: string)
    ensures Seqs.Filter(Toggled(days, day), NotDay(day)) == Seqs.Filter(days, NotDay(day))
  {
    if day in days {
      Seqs.FilterIdempotent(days, NotDay(day));
    } else {
      Seqs.FilterAppend(days, [day], NotDay(day));
      assert Seqs.Filter([day], NotDay(day)) == [];
    }
  }

  /** Toggling an unselected day twice restores the list exactly. */
  lemma ToggleTwiceRestores(days: seq<string>, day: string)
    requires day !in days
    ensures Toggled(Toggled(days, day), day) == days
  {
    var once := days + [day];
    assert day in once;
    Seqs.FilterAppend(days, [day], NotDay(day));
    assert Seqs.Filter([day], NotDay(day)) == [];
    Seqs.FilterKeepsAll(days, NotDay(day));
  }

  /** A duplicate-free list stays duplicate-free. */
  lemma ToggleKeepsNoDuplicates(days: seq<string>, day: string)
    requires Seqs.NoDuplicates(days)
    ensures Seqs.NoDuplicates(Toggled(days, day))
  {
    if day in days {
      Seqs.FilterNoDuplicates(days, NotDay(day));
    }
  }

  /** `calculateCustomPrice`. */
  function CustomPrice(days: seq<string>): int {
    |days| * PricePerDelivery
  }

  lemma WeekDaysCount()
    ensures |WeekDays| == 7
  {
  }

  /** Selected from the seven day ids without repeats, at most seven days
      and at most 385 for the custom plan. */
  lemma CustomPriceBounded(days: seq<string>)
    requires Seqs.NoDuplicates(days)
    requires forall i :: 0 <= i < |days| ==> days[i] in WeekDays
    ensures |days| <= 7
    ensures 0 <= CustomPrice(days) <= 385
  {
    Seqs.NoDuplicatesBounded(days, WeekDays);
    WeekDaysCount();
  }

  class SubscriptionPlansPage {
    var selectedDays: seq<string>

    /** Days are toggled from the selector's list and never repeat. */
    ghost predicate Valid()
      reads this
    {
      Seqs.NoDuplicates(selectedDays) &&
      forall i :: 0 <= i < |selectedDays| ==> selectedDays[i] in WeekDays
    }

    constructor ()
      ensures Valid() && selectedDays == [] && CustomPrice(selectedDays) == 0
    {
      selectedDays := [];
    }

    method ToggleDay(day: string)
      requires Valid() && day in WeekDays
      modifies this
      ensures Valid()
      ensures selectedDays == Toggled(old(selectedDays), day)
      ensures 0 <= CustomPrice(selectedDays) <= 385
    {
      ToggleKeepsNoDuplicates(selectedDays, day);
      var next := Toggled(selectedDays, day);
      forall i | 0 <= i < |next| ensures next[i] in WeekDays {
        if next[i] != day {
          ToggleFlipsOnlyThatDay(selectedDays, day, next[i]);
          var k :| 0 <= k < |selectedDays| && selectedDays[k] == next[i];
        }
      }
      selectedDays := next;
      CustomPriceBounded(selectedDays);
    }
  }
}
