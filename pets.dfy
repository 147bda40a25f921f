/**
 * The pet helpers the core uses: the active-pet count of the statistics
 * card and the age of a pet in whole years and months, by calendar month
 * with the current date given as a parameter.
 */
module Pets {
  import opened Common
  import Clock

  datatype Pet = Pet(id: string, name: string, species: Option<string>, clientId: string, isActive: bool)

  /** A month as `Date.getMonth()` gives it: January is 0. */
  type Month = m: int | 0 <= m < 12

  datatype Age = Age(years: int, months: int)

  /** The months from the birth month to the current month, counted on the calendar. */
  function MonthsBetween(birthYear: int, birthMonth: Month, nowYear: int, nowMonth: Month): int {
    (nowYear - birthYear) * 12 + (nowMonth - birthMonth)
  }

  /**
   * `calculateAge`: the difference of the years and of the months, with a
   * year borrowed when the current month is before the birth month. The day
   * of the month plays no part.
   */
  function CalculateAge(birthYear: int, birthMonth: Month, nowYear: int, nowMonth: Month): (age: Age)
    ensures 0 <= age.months <= 11
    ensures age.years * 12 + age.months == MonthsBetween(birthYear, birthMonth, nowYear, nowMonth)
    ensures age.years == nowYear - birthYear - (if nowMonth < birthMonth then 1 else 0)
  {
    var years := nowYear - birthYear;
    var months := nowMonth - birthMonth;
    if months < 0 then Age(years - 1, months + 12) else Age(years, months)
  }

  /** The age is the month count split into whole years and the remaining months. */
  lemma AgeIsYearsAndMonths(birthYear: int, birthMonth: Month, nowYear: int, nowMonth: Month)
    ensures var age := CalculateAge(birthYear, birthMonth, nowYear, nowMonth);
      var total := MonthsBetween(birthYear, birthMonth, nowYear, nowMonth);
      age.years == total / 12 && age.months == total % 12
  {
    var age := CalculateAge(birthYear, birthMonth, nowYear, nowMonth);
    var total := MonthsBetween(birthYear, birthMonth, nowYear, nowMonth);
    Clock.DivUnique(total, 12, age.years, age.months);
  }

  /** A pet born this month of an earlier year has whole years and no months. */
  lemma BirthdayMonthHasNoMonths(birthYear: int, month: Month, nowYear: int)
    ensures CalculateAge(birthYear, month, nowYear, month) == Age(nowYear - birthYear, 0)
  {
  }

  /** A pet born in December is 0 years and 1 month old in January of the next year. */
  lemma AcrossNewYear(year: int)
    ensures CalculateAge(year, 11, year + 1, 0) == Age(0, 1)
  {
  }

  /** The number of active pets (`getPetsCount`). */
  function ActiveCount(pets: seq<Pet>): (n: nat)
    ensures n <= |pets|
  {
    if |pets| == 0 then 0 else (if pets[0].isActive then 1 else 0) + ActiveCount(pets[1..])
  }

  /** The count adds up over the parts of a list. */
  lemma {:induction false} ActiveCountAppend(a: seq<Pet>, b: seq<Pet>)
    ensures ActiveCount(a + b) == ActiveCount(a) + ActiveCount(b)
  {
    if |a| > 0 {
      ActiveCountAppend(a[1..], b);
      assert (a + b)[1..] == a[1..] + b;
    } else {
      assert a + b == b;
    }
  }

  /** Every pet is counted exactly when every pet is active; none is counted when none is. */
  lemma {:induction false} ActiveCountBounds(pets: seq<Pet>)
    ensures ActiveCount(pets) == |pets| <==> forall i :: 0 <= i < |pets| ==> pets[i].isActive
    ensures ActiveCount(pets) == 0 <==> forall i :: 0 <= i < |pets| ==> !pets[i].isActive
  {
    if |pets| > 0 {
      ActiveCountBounds(pets[1..]);
      assert forall i :: 1 <= i < |pets| ==> pets[i] == pets[1..][i - 1];
    }
  }
}
