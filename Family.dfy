/** Family: two spouses linked to each other at construction, extended by
    children while some member is an adult (21 or older), and summing the
    income of its employed members. */
module FamilyModel {
  import opened JobModel
  import opened PersonModel

  datatype Option<T> = None | Some(value: T)

  /** Hours assumed when household income is asked for without any. */
  const DefaultHours: int := 2000

  /** Some person in `people` is 21 or older. */
  predicate HasAdult(people: seq<Person>)
    reads people
  {
    exists i :: 0 <= i < |people| && people[i].age >= 21
  }

  /** The jobs held by the people in `people`. */
  function JobsOf(people: seq<Person>): set<Job>
    reads people
  {
    set i | 0 <= i < |people| && people[i].job != null :: people[i].job
  }

  /** Combined income, for the given hours, of the people in `people` who hold a job. */
  function Earnings(people: seq<Person>, hours: int): int
    reads people, JobsOf(people)
  {
    if people == [] then 0
    else
      var last := people[|people| - 1];
      Earnings(people[..|people| - 1], hours) + (if last.job == null then 0 else last.job.kind.Income(hours))
  }

  class Family {
    var members: seq<Person>

    /** Links two unmarried people as spouses (subject to their age gates) and makes them the members. */
    constructor (spouse1: Person, spouse2: Person)
      requires spouse1.spouse == null && spouse2.spouse == null
      modifies spouse1, spouse2
      ensures members == [spouse1, spouse2]
      ensures spouse1.spouse == (if MayMarry(spouse1.age) then spouse2 else null)
      ensures spouse2.spouse == (if MayMarry(spouse2.age) then spouse1 else null)
      ensures spouse1.job == old(spouse1.job) && spouse2.job == old(spouse2.job)
      ensures spouse1.age == old(spouse1.age) && spouse2.age == old(spouse2.age)
      ensures spouse1.firstName == old(spouse1.firstName) && spouse1.lastName == old(spouse1.lastName)
      ensures spouse2.firstName == old(spouse2.firstName) && spouse2.lastName == old(spouse2.lastName)
    {
      spouse1.SetSpouse(spouse2);
      spouse2.SetSpouse(spouse1);
      members := [spouse1, spouse2];
    }

    /** Founding a family fails, changing nothing, when either person already has a spouse. */
    static method Create(spouse1: Person, spouse2: Person) returns (family: Family?)
      modifies spouse1, spouse2
      ensures family == null <==> old(spouse1.spouse) != null || old(spouse2.spouse) != null
      ensures family == null ==> unchanged(spouse1, spouse2)
      ensures family != null ==> fresh(family) && family.members == [spouse1, spouse2]
      ensures family != null ==> spouse1.spouse == (if MayMarry(spouse1.age) then spouse2 else null)
      ensures family != null ==> spouse2.spouse == (if MayMarry(spouse2.age) then spouse1 else null)
      ensures spouse1.job == old(spouse1.job) && spouse2.job == old(spouse2.job)
      ensures spouse1.age == old(spouse1.age) && spouse2.age == old(spouse2.age)
      ensures spouse1.firstName == old(spouse1.firstName) && spouse1.lastName == old(spouse1.lastName)
      ensures spouse2.firstName == old(spouse2.firstName) && spouse2.lastName == old(spouse2.lastName)
    {
      if spouse1.spouse != null || spouse2.spouse != null {
        return null;
      }
      family := new Family(spouse1, spouse2);
    }

    /** Appends the child when some member is an adult, reporting whether it did. */
    method HaveChild(child: Person) returns (born: bool)
      modifies this
      ensures born <==> HasAdult(old(members))
      ensures members == if born then old(members) + [child] else old(members)
    {
      var adult := false;
      for i := 0 to |members|
        invariant !adult
        invariant forall j :: 0 <= j < i ==> members[j].age < 21
      {
        if members[i].age >= 21 {
          adult := true;
          break;
        }
      }
      if adult {
        members := members + [child];
        return true;
      } else {
        return false;
      }
    }

    /** Sum of the members' incomes for `hoursWorked` hours, or for 2000 hours when none is given. */
    method HouseholdIncome(hoursWorked: Option<int>) returns (totalIncome: int)
      ensures totalIncome == Earnings(members, if hoursWorked.Some? then hoursWorked.value else DefaultHours)
    {
      var hours := if hoursWorked.Some? then hoursWorked.value else DefaultHours;
      totalIncome := 0;
      for i := 0 to |members|
        invariant totalIncome == Earnings(members[..i], hours)
      {
        assert members[..i + 1][..i] == members[..i];
        var person := members[i];
        if person.job != null {
          totalIncome := totalIncome + person.job.kind.Income(hours);
        }
      }
      assert members[..|members|] == members;
    }
  }

  /** A household in which nobody holds a job earns nothing. */
  lemma {:induction false} NobodyEmployedEarnsNothing(people: seq<Person>, hours: int)
    requires forall i :: 0 <= i < |people| ==> people[i].job == null
    ensures Earnings(people, hours) == 0
  {
    if people != [] {
      NobodyEmployedEarnsNothing(people[..|people| - 1], hours);
    }
  }

  /** Earnings add up over consecutive groups of people. */
  lemma {:induction false} EarningsOfConcatenation(a: seq<Person>, b: seq<Person>, hours: int)
    ensures Earnings(a + b, hours) == Earnings(a, hours) + Earnings(b, hours)
  {
    if b == [] {
      assert a + b == a;
    } else {
      assert (a + b)[..|a + b| - 1] == a + b[..|b| - 1];
      EarningsOfConcatenation(a, b[..|b| - 1], hours);
    }
  }

  /** Adding someone without a job does not change the household's earnings. */
  lemma {:induction false} UnemployedNewcomerAddsNothing(people: seq<Person>, child: Person, hours: int)
    requires child.job == null
    ensures Earnings(people + [child], hours) == Earnings(people, hours)
  {
    EarningsOfConcatenation(people, [child], hours);
    assert [child][..0] == [];
  }

  /** When every employed person is salaried, earnings do not depend on the hours. */
  lemma {:induction false} SalariedHouseholdIgnoresHours(people: seq<Person>, h1: int, h2: int)
    requires forall i :: 0 <= i < |people| && people[i].job != null ==> people[i].job.kind.Salary?
    ensures Earnings(people, h1) == Earnings(people, h2)
  {
    if people != [] {
      SalariedHouseholdIgnoresHours(people[..|people| - 1], h1, h2);
    }
  }

  /** Once a family has an adult, every later child is accepted too, since none of these operations changes an age. */
  lemma {:induction false} AdultRemainsAfterChild(people: seq<Person>, child: Person)
    requires HasAdult(people)
    ensures HasAdult(people + [child])
  {
    var i :| 0 <= i < |people| && people[i].age >= 21;
    assert (people + [child])[i] == people[i];
  }

  /** A client scenario verified against the contracts alone: age gates, child admission and household income. */
  method HouseholdScenario()
  {
    var ted := new Person("Ted", "Neward", 20);
    var charlotte := new Person("Charlotte", "Neward", 20);
    var family := new Family(ted, charlotte);
    assert ted.spouse == charlotte && charlotte.spouse == ted;

    var child := new Person("Matthew", "Neward", 1);
    var born := family.HaveChild(child);
    assert !born && |family.members| == 2;

    var job := new Job("Guest Lecturer", Salary(50000));
    ted.SetJob(job);
    assert job.kind.Income(DefaultHours) == 50000;
    var income := family.HouseholdIncome(None);
    assert income == Earnings([ted, charlotte], DefaultHours);
    assert [ted, charlotte][..1] == [ted] && [ted][..0] == [];
    assert charlotte.job == null && ted.job == job;
    assert Earnings([ted], DefaultHours) == 50000;
    assert income == 50000;

    var teen := new Person("Sam", "Young", 16);
    teen.SetJob(job);
    assert teen.job == null;

    var elder := new Person("Ada", "Old", 21);
    var other := new Person("Bo", "Old", 19);
    var family2 := new Family(elder, other);
    born := family2.HaveChild(child);
    assert born && family2.members == [elder, other, child];
  }
}
