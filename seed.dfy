/**
 * The production seed script: two loops that insert each seed user (keyed by
 * email) and each seed student (keyed by `studentId`) only when no record
 * with that key exists yet, counting what they insert. The two collections
 * are ordered lists of records; `findOne` is a search by key.
 */
module Seed {

  /** A seed user: its email and the password given to `new User(...)` (hashing on save is not modelled). */
  datatype User = User(email: string, password: string)

  /**
   * A seed student record (its `dateOfBirth` is not modelled). This is the
   * seed script's own view of the Student collection: typed literals whose
   * identity is the `studentId` field it searches with `findOne`. The
   * router's view, `StudentStore.Student`, is keyed by the `_id` the store
   * assigns and holds whatever JSON the request body carried, so the two
   * are different keys over the same documents and neither is derived from
   * the other.
   */
  datatype SeedStudent = SeedStudent(
    fullName: string, school: string, studentId: int, teacher: string, gender: string, race: string,
    gradeLevel: int, nativeLanguage: string, cityOfBirth: string, countryOfBirth: string,
    ellStatus: string, compositeLevel: string, active: bool, designation: string)

  function EmailOf(u: User): string
  {
    u.email
  }

  function StudentIdOf(s: SeedStudent): int
  {
    s.studentId
  }

  const UsersData: seq<User> := [
    User("demo@example.com", "demopassword"),
    User("teacher1@example.com", "password123"),
    User("teacher2@example.com", "password123"),
    User("admin@example.com", "password123"),
    User("demo2@example.com", "demopassword")
  ]

  const StudentsData: seq<SeedStudent> := [
    SeedStudent("Maria Rodriguez", "Lincoln Elementary", 12345, "Ms. Johnson", "Female", "Hispanic", 5, "Spanish", "Mexico City", "Mexico", "ELL", "Intermediate", true, "General Education"),
    SeedStudent("Yuki Tanaka", "Lincoln Elementary", 12346, "Mr. Davis", "Male", "Asian", 4, "Japanese", "Tokyo", "Japan", "ELL", "Beginning", true, "General Education"),
    SeedStudent("Ahmed Hassan", "Washington Middle School", 12347, "Mrs. Smith", "Male", "Middle Eastern", 6, "Arabic", "Cairo", "Egypt", "ELL", "Intermediate", true, "Special Education"),
    SeedStudent("Ling Chen", "Washington Middle School", 12348, "Mr. Thompson", "Female", "Asian", 7, "Mandarin", "Beijing", "China", "Former ELL", "Advanced", true, "General Education"),
    SeedStudent("Sofia Petrov", "Lincoln Elementary", 12349, "Ms. Johnson", "Female", "White", 5, "Russian", "Moscow", "Russia", "ELL", "Intermediate", true, "General Education"),
    SeedStudent("Jean-Pierre Dubois", "Roosevelt High School", 12350, "Mr. Anderson", "Male", "Black", 9, "French", "Port-au-Prince", "Haiti", "ELL", "Advanced", true, "General Education"),
    SeedStudent("Fatima Al-Rashid", "Washington Middle School", 12351, "Mrs. Smith", "Female", "Middle Eastern", 6, "Arabic", "Damascus", "Syria", "ELL", "Beginning", true, "General Education"),
    SeedStudent("Carlos Mendez", "Roosevelt High School", 12352, "Ms. Martinez", "Male", "Hispanic", 10, "Spanish", "Guatemala City", "Guatemala", "Former ELL", "Proficient", true, "General Education"),
    SeedStudent("Min-Ji Park", "Lincoln Elementary", 12353, "Mr. Davis", "Female", "Asian", 4, "Korean", "Seoul", "South Korea", "ELL", "Beginning", true, "General Education"),
    SeedStudent("Oluwaseun Adeyemi", "Roosevelt High School", 12354, "Mr. Anderson", "Male", "Black", 9, "Yoruba", "Lagos", "Nigeria", "ELL", "Intermediate", true, "General Education")
  ]

  /** `findOne({ key: k })` finds a record. */
  predicate HasKey<T, K(==)>(store: seq<T>, k: K, key: T -> K)
  {
    exists i :: 0 <= i < |store| && key(store[i]) == k
  }

  /** No two records share a key. */
  ghost predicate UniqueKeys<T, K>(store: seq<T>, key: T -> K)
  {
    forall i, j :: 0 <= i < j < |store| ==> key(store[i]) != key(store[j])
  }

  /** A collection after a seeding loop, and the loop's counter. */
  datatype Run<T> = Run(store: seq<T>, created: nat)

  /**
   * The seeding loop over `data`, in order: each record is appended, and the
   * counter incremented, exactly when the collection as it stands (including
   * records appended earlier in the same run) has no record with its key.
   */
  function InsertMissing<T, K(==)>(store: seq<T>, data: seq<T>, key: T -> K): Run<T>
    decreases |data|
  {
    if data == [] then Run(store, 0)
    else
      var prev := InsertMissing(store, data[..|data| - 1], key);
      var d := data[|data| - 1];
      if HasKey(prev.store, key(d), key) then prev else Run(prev.store + [d], prev.created + 1)
  }

  /**
   * The loop only appends: existing records stay as they are, in place; the
   * counter is the number of records appended; each appended record is a
   * seed record.
   */
  lemma {:induction false} InsertMissingOnlyAppends<T, K>(store: seq<T>, data: seq<T>, key: T -> K)
    ensures var r := InsertMissing(store, data, key);
      && |r.store| == |store| + r.created
      && r.store[..|store|] == store
      && (forall x :: x in r.store[|store|..] ==> x in data)
    decreases |data|
  {
    if data != [] {
      var init := data[..|data| - 1];
      InsertMissingOnlyAppends(store, init, key);
      var prev := InsertMissing(store, init, key);
      var d := data[|data| - 1];
      if !HasKey(prev.store, key(d), key) {
        var s := prev.store + [d];
        assert s[..|store|] == prev.store[..|store|];
        forall x | x in s[|store|..] ensures x in data {
          if x in prev.store[|store|..] {
            assert x in init;
          } else {
            assert s[|store|..] == prev.store[|store|..] + [d];
          }
        }
      } else {
        forall x | x in prev.store[|store|..] ensures x in data {
          assert x in init;
        }
      }
    }
  }

  /** After the loop, every seed key is present. */
  lemma {:induction false} InsertMissingCovers<T, K>(store: seq<T>, data: seq<T>, key: T -> K)
    ensures forall d :: d in data ==> HasKey(InsertMissing(store, data, key).store, key(d), key)
    decreases |data|
  {
    if data != [] {
      var init := data[..|data| - 1];
      InsertMissingCovers(store, init, key);
      var prev := InsertMissing(store, init, key);
      var last := data[|data| - 1];
      var r := InsertMissing(store, data, key);
      assert prev.store <= r.store;
      forall d | d in data ensures HasKey(r.store, key(d), key) {
        if d == last {
          if !HasKey(prev.store, key(d), key) {
            assert r.store[|r.store| - 1] == d;
          }
        } else {
          assert d in init by {
            var i :| 0 <= i < |data| && data[i] == d;
            assert init[i] == d;
          }
          var x :| x in prev.store && key(x) == key(d);
          var i :| 0 <= i < |prev.store| && prev.store[i] == x;
          assert r.store[i] == x;
        }
      }
    }
  }

  /** When every seed key is already present, the loop inserts nothing. */
  lemma {:induction false} NothingMissing<T, K>(store: seq<T>, data: seq<T>, key: T -> K)
    requires forall d :: d in data ==> HasKey(store, key(d), key)
    ensures InsertMissing(store, data, key) == Run(store, 0)
    decreases |data|
  {
    if data != [] {
      var init := data[..|data| - 1];
      forall d | d in init ensures HasKey(store, key(d), key) {
        var i :| 0 <= i < |init| && init[i] == d;
        assert data[i] == d;
      }
      NothingMissing(store, init, key);
    }
  }

  /** Seeding is idempotent: a second run over the result inserts nothing and counts 0. */
  lemma InsertMissingIdempotent<T, K>(store: seq<T>, data: seq<T>, key: T -> K)
    ensures var r := InsertMissing(store, data, key);
      InsertMissing(r.store, data, key) == Run(r.store, 0)
  {
    InsertMissingCovers(store, data, key);
    NothingMissing(InsertMissing(store, data, key).store, data, key);
  }

  /** The loop never creates a duplicate key, even when the seed list itself repeats one. */
  lemma {:induction false} InsertMissingKeepsKeysUnique<T, K>(store: seq<T>, data: seq<T>, key: T -> K)
    requires UniqueKeys(store, key)
    ensures UniqueKeys(InsertMissing(store, data, key).store, key)
    decreases |data|
  {
    if data != [] {
      var init := data[..|data| - 1];
      InsertMissingKeepsKeysUnique(store, init, key);
      var prev := InsertMissing(store, init, key);
      var d := data[|data| - 1];
      if !HasKey(prev.store, key(d), key) {
        var s := prev.store + [d];
        forall i, j | 0 <= i < j < |s| ensures key(s[i]) != key(s[j]) {
          if j == |prev.store| {
            assert s[i] in prev.store;
          } else {
            assert s[i] == prev.store[i] && s[j] == prev.store[j];
          }
        }
      }
    }
  }

  /** On a collection holding none of the keys, distinct seed keys are all inserted, in order. */
  lemma {:induction false} InsertMissingFresh<T, K>(store: seq<T>, data: seq<T>, key: T -> K)
    requires UniqueKeys(data, key)
    requires forall d :: d in data ==> !HasKey(store, key(d), key)
    ensures InsertMissing(store, data, key) == Run(store + data, |data|)
    decreases |data|
  {
    if data != [] {
      var init := data[..|data| - 1];
      var d := data[|data| - 1];
      assert UniqueKeys(init, key);
      InsertMissingFresh(store, init, key);
      assert InsertMissing(store, init, key).store == store + init;
      var s := store + init;
      forall i | 0 <= i < |s| ensures key(s[i]) != key(d) {
        if i < |store| {
          assert s[i] == store[i];
        } else {
          assert s[i] == data[i - |store|];
        }
      }
      assert !HasKey(s, key(d), key);
      assert store + init + [d] == store + data;
    }
  }

  /** The ten seed `studentId`s are 12345 to 12354, pairwise distinct; the five seed emails are distinct. */
  lemma SeedKeysDistinct()
    ensures UniqueKeys(StudentsData, StudentIdOf)
    ensures UniqueKeys(UsersData, EmailOf)
  {
    assert forall i :: 0 <= i < |StudentsData| ==> StudentsData[i].studentId == 12345 + i;
    var e := seq(|UsersData|, i requires 0 <= i < |UsersData| => UsersData[i].email);
    assert e[0][0] == 'd' && e[1][0] == 't' && e[2][0] == 't' && e[3][0] == 'a' && e[4][0] == 'd';
    assert e[1][7] == '1' && e[2][7] == '2';
    assert e[0][4] == '@' && e[4][4] == '2';
  }

  /** The two collections the script writes to. */
  class Database {
    var users: seq<User>
    var students: seq<SeedStudent>

    constructor (users: seq<User>, students: seq<SeedStudent>)
      ensures this.users == users && this.students == students
    {
      this.users := users;
      this.students := students;
    }

    /** The users loop: `createdUsers` counts the users it saved. */
    method SeedUsers(data: seq<User>) returns (createdUsers: nat)
      modifies this
      ensures Run(users, createdUsers) == InsertMissing(old(users), data, EmailOf)
      ensures students == old(students)
    {
      createdUsers := 0;
      var i := 0;
      while i < |data|
        invariant 0 <= i <= |data|
        invariant Run(users, createdUsers) == InsertMissing(old(users), data[..i], EmailOf)
        invariant students == old(students)
      {
        var userData := data[i];
        assert data[..i + 1][..i] == data[..i];
        var existingUser := HasKey(users, userData.email, EmailOf);
        if !existingUser {
          users := users + [userData];
          createdUsers := createdUsers + 1;
        }
        i := i + 1;
      }
      assert data[..i] == data;
    }

    /** The students loop: `createdStudents` counts the students it created. */
    method SeedStudents(data: seq<SeedStudent>) returns (createdStudents: nat)
      modifies this
      ensures Run(students, createdStudents) == InsertMissing(old(students), data, StudentIdOf)
      ensures users == old(users)
    {
      createdStudents := 0;
      var i := 0;
      while i < |data|
        invariant 0 <= i <= |data|
        invariant Run(students, createdStudents) == InsertMissing(old(students), data[..i], StudentIdOf)
        invariant users == old(users)
      {
        var studentData := data[i];
        assert data[..i + 1][..i] == data[..i];
        var existingStudent := HasKey(students, studentData.studentId, StudentIdOf);
        if !existingStudent {
          students := students + [studentData];
          createdStudents := createdStudents + 1;
        }
        i := i + 1;
      }
      assert data[..i] == data;
    }

    /** `seedDatabase`: the users loop, then the students loop, over the fixed seed data. */
    method SeedDatabase() returns (createdUsers: nat, createdStudents: nat)
      modifies this
      ensures Run(users, createdUsers) == InsertMissing(old(users), UsersData, EmailOf)
      ensures Run(students, createdStudents) == InsertMissing(old(students), StudentsData, StudentIdOf)
    {
      createdUsers := SeedUsers(UsersData);
      createdStudents := SeedStudents(StudentsData);
    }
  }

  /**
   * Running the script twice: on empty collections the first run creates the
   * five users and ten students; whatever the collections held, the second
   * run creates nothing and leaves them as the first run did.
   */
  method SeedTwice(users: seq<User>, students: seq<SeedStudent>)
    returns (firstUsers: nat, firstStudents: nat, secondUsers: nat, secondStudents: nat)
    ensures users == [] && students == [] ==> firstUsers == 5 && firstStudents == 10
    ensures secondUsers == 0 && secondStudents == 0
  {
    var db := new Database(users, students);
    firstUsers, firstStudents := db.SeedDatabase();
    InsertMissingIdempotent(users, UsersData, EmailOf);
    InsertMissingIdempotent(students, StudentsData, StudentIdOf);
    if users == [] && students == [] {
      SeedKeysDistinct();
      InsertMissingFresh(users, UsersData, EmailOf);
      InsertMissingFresh(students, StudentsData, StudentIdOf);
    }
    secondUsers, secondStudents := db.SeedDatabase();
  }
}
