/** Person: a named individual of a fixed age who may hold a Job and a
    spouse. Both associations are age-gated: assigning one below the age
    limit silently clears it instead of failing. */
module PersonModel {
  import opened JobModel

  /** Old enough for a job to stick: over 16. */
  predicate MayWork(age: int) {
    age > 16
  }

  /** Old enough for a spouse to stick: over 18. */
  predicate MayMarry(age: int) {
    age > 18
  }

  class Person {
    var firstName: string
    var lastName: string
    var age: int
    var spouse: Person?
    var job: Job?

    constructor (firstName: string, lastName: string, age: int)
      ensures this.firstName == firstName && this.lastName == lastName && this.age == age
      ensures job == null && spouse == null
    {
      this.firstName := firstName;
      this.lastName := lastName;
      this.age := age;
      this.job := null;
      this.spouse := null;
    }

    /** Assigns the job, or clears it when the person is 16 or younger. */
    method SetJob(newValue: Job?)
      modifies this
      ensures job == (if MayWork(age) then newValue else null)
      ensures spouse == old(spouse)
      ensures firstName == old(firstName) && lastName == old(lastName) && age == old(age)
    {
      if age <= 16 {
        job := null;
      } else {
        job := newValue;
      }
    }

    /** Assigns the spouse, or clears it when the person is 18 or younger. */
    method SetSpouse(newValue: Person?)
      modifies this
      ensures spouse == (if MayMarry(age) then newValue else null)
      ensures job == old(job)
      ensures firstName == old(firstName) && lastName == old(lastName) && age == old(age)
    {
      if age <= 18 {
        spouse := null;
      } else {
        spouse := newValue;
      }
    }
  }
}
