/** Job: a title and a compensation scheme, either an hourly wage or a
    yearly salary. Income dispatches on the scheme; raises replace the
    scheme of the Job object in place, so every holder of the Job sees them. */
module JobModel {
  import opened Numerics

  /** Hourly wages are exact reals; salaries are unsigned whole amounts. */
  datatype JobType = Hourly(rate: real) | Salary(salary: nat)
  {
    /** Income for the given number of hours: an hourly wage times the hours with
        the fraction dropped; a salary whatever the hours. */
    function Income(hours: int): (r: int)
      ensures Salary? ==> r == salary
      ensures Hourly? ==> TowardZero(rate * hours as real, r)
    {
      match this
      case Hourly(cost) => Truncate(cost * hours as real)
      case Salary(s) => s
    }

    /** The scheme after a raise by a fixed amount; a salary gains only the whole part.
        This is the specification of Job.RaiseByAmount, which performs it in place. */
    function RaisedByAmount(amount: real): JobType
      requires Salary? ==> amount > -1.0
    {
      match this
      case Hourly(cost) => Hourly(cost + amount)
      case Salary(s) => Salary(s + Truncate(amount))
    }

    /** The scheme after a raise by a fraction (0.1 is ten percent); a salary is truncated.
        This is the specification of Job.RaiseByPercent, which performs it in place. */
    function RaisedByPercent(percent: real): JobType
      requires Salary? ==> salary as real * (1.0 + percent) > -1.0
    {
      match this
      case Hourly(cost) => Hourly(cost * (1.0 + percent))
      case Salary(s) => Salary(Truncate(s as real * (1.0 + percent)))
    }
  }

  class Job {
    const title: string
    var kind: JobType

    constructor (title: string, kind: JobType)
      ensures this.title == title && this.kind == kind
    {
      this.title := title;
      this.kind := kind;
    }

    method RaiseByAmount(amount: real)
      requires kind.Salary? ==> amount > -1.0
      modifies this
      ensures kind == old(kind).RaisedByAmount(amount)
    {
      match kind
      case Hourly(cost) =>
        kind := Hourly(cost + amount);
      case Salary(s) =>
        kind := Salary(s + Truncate(amount));
    }

    method RaiseByPercent(percent: real)
      requires kind.Salary? ==> kind.salary as real * (1.0 + percent) > -1.0
      modifies this
      ensures kind == old(kind).RaisedByPercent(percent)
    {
      var raise := 1.0 + percent;
      match kind
      case Hourly(cost) =>
        var wage := cost * raise;
        kind := Hourly(wage);
      case Salary(s) =>
        var newSalary := s as real * raise;
        kind := Salary(Truncate(newSalary));
    }
  }

  /** A raise of nothing, by amount or by percent, leaves the scheme as it was. */
  lemma {:induction false} ZeroRaiseChangesNothing(t: JobType)
    ensures t.RaisedByAmount(0.0) == t
    ensures t.RaisedByPercent(0.0) == t
  {
    if t.Salary? {
      WholeNumbersAreFixed(0);
      WholeNumbersAreFixed(t.salary);
    }
  }

  /** A salary's income does not depend on the hours worked. */
  lemma {:induction false} SalaryIgnoresHours(t: JobType, h1: int, h2: int)
    requires t.Salary?
    ensures t.Income(h1) == t.Income(h2) == t.salary
  {
  }

  /** A non-negative raise by amount never lowers income for non-negative hours. */
  lemma {:induction false} RaiseByAmountNeverLowersIncome(t: JobType, amount: real, hours: int)
    requires amount >= 0.0 && hours >= 0
    ensures t.RaisedByAmount(amount).Income(hours) >= t.Income(hours)
  {
    match t
    case Hourly(cost) =>
      assert (cost + amount) * hours as real >= cost * hours as real;
      TruncateIsMonotone(cost * hours as real, (cost + amount) * hours as real);
    case Salary(s) =>
  }

  /** A salary raised by amount earns exactly the whole part of the amount more, whatever the hours. */
  lemma {:induction false} SalaryRaiseAddsWholePart(s: nat, amount: real, hours: int)
    requires amount > -1.0
    ensures Salary(s).RaisedByAmount(amount).Income(hours) == s + Truncate(amount)
    ensures amount < 1.0 ==> Salary(s).RaisedByAmount(amount).Income(hours) == s
  {
  }

  /** A non-negative percentage raise never lowers income, for a non-negative wage and hours. */
  lemma {:induction false} RaiseByPercentNeverLowersIncome(t: JobType, percent: real, hours: int)
    requires percent >= 0.0 && hours >= 0
    requires t.Hourly? ==> t.rate >= 0.0
    ensures t.RaisedByPercent(percent).Income(hours) >= t.Income(hours)
  {
    match t
    case Hourly(cost) =>
      var h := hours as real;
      var before, after := cost * h, (cost * (1.0 + percent)) * h;
      assert before >= 0.0;
      assert after == before + percent * before;
      assert percent * before >= 0.0;
      TruncateIsMonotone(before, after);
      assert t.RaisedByPercent(percent) == Hourly(cost * (1.0 + percent));
    case Salary(s) =>
      assert s as real * (1.0 + percent) >= s as real;
      WholeNumbersAreFixed(s);
      TruncateIsMonotone(s as real, s as real * (1.0 + percent));
  }

  /** Worked values: 15.00 an hour for 10 hours is 150; 20.00 raised by ten percent is 22.00. */
  lemma {:induction false} WorkedExamples(hours: int)
    ensures Hourly(15.0).Income(10) == 150
    ensures Salary(1000).Income(hours) == 1000
    ensures Hourly(20.0).RaisedByPercent(0.1) == Hourly(22.0)
  {
    WholeNumbersAreFixed(150);
  }
}
