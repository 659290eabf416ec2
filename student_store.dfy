/**
 * The Student collection as the router's handlers use it: an ordered list of
 * documents (the order `Student.find({})` returns them in), each with the id
 * the store assigned and the fifteen fields copied from the request body.
 * `findById`, `findOneAndUpdate` and `findOneAndDelete` act on the first
 * document whose id matches.
 */
module StudentStore {
  import opened Wrappers
  import opened Js

  /** The fields the create and update handlers copy from `req.body`, in source order. */
  const FieldNames: seq<string> := [
    "fullName", "school", "studentId", "teacher", "dateOfBirth", "gender", "race",
    "gradeLevel", "nativeLanguage", "cityOfBirth", "countryOfBirth", "ellStatus",
    "compositeLevel", "active", "designation"]

  type Fields = map<string, JsValue>

  datatype Student = Student(id: string, fields: Fields)

  /**
   * The object literal the handlers build from the request body: every named
   * field, undefined where the body lacks it, and no other key of the body.
   */
  function Pick(body: map<string, JsValue>): (f: Fields)
    ensures |FieldNames| == 15
    ensures forall k :: k in f <==> k in FieldNames
    ensures forall k :: k in FieldNames ==> f[k] == Field(body, k)
  {
    map k | k in FieldNames :: Field(body, k)
  }

  /** Two bodies that agree on the fifteen named fields yield the same record: other keys are dropped. */
  lemma PickIgnoresOtherKeys(b1: map<string, JsValue>, b2: map<string, JsValue>)
    requires forall k :: k in FieldNames ==> Field(b1, k) == Field(b2, k)
    ensures Pick(b1) == Pick(b2)
  {
  }

  /** The JSON a stored document serialises to: its fields and its `_id`. */
  function ToJs(s: Student): JsValue
  {
    Obj(s.fields + map["_id" := Str(s.id)])
  }

  /** The array `res.json(students)` sends. */
  function ListJs(s: seq<Student>): (v: JsValue)
    ensures v.Arr? && |v.items| == |s|
    ensures forall i :: 0 <= i < |s| ==> v.items[i] == ToJs(s[i])
  {
    Arr(seq(|s|, i requires 0 <= i < |s| => ToJs(s[i])))
  }

  predicate HasId(s: seq<Student>, id: string)
  {
    exists x :: x in s && x.id == id
  }

  /** The store's own invariant: `_id` is unique across the collection. */
  ghost predicate UniqueIds(s: seq<Student>)
  {
    forall i, j :: 0 <= i < j < |s| ==> s[i].id != s[j].id
  }

  /** `findById(id)`: the first document with that id, or null. */
  function FindById(s: seq<Student>, id: string): (r: Option<Student>)
    ensures r.None? <==> !HasId(s, id)
    ensures r.Some? ==> r.value.id == id && r.value in s
    decreases |s|
  {
    if s == [] then None
    else if s[0].id == id then Some(s[0])
    else FindById(s[1..], id)
  }

  /** `findOneAndUpdate({_id: id}, fields)`: sets the fields of the first document with that id. */
  function UpdateById(s: seq<Student>, id: string, f: Fields): (r: seq<Student>)
    decreases |s|
  {
    if s == [] then []
    else if s[0].id == id then [Student(id, f)] + s[1..]
    else [s[0]] + UpdateById(s[1..], id, f)
  }

  /** `findOneAndDelete({_id: id})`: removes the first document with that id. */
  function DeleteById(s: seq<Student>, id: string): (r: seq<Student>)
    decreases |s|
  {
    if s == [] then []
    else if s[0].id == id then s[1..]
    else [s[0]] + DeleteById(s[1..], id)
  }

  /** Update keeps every id in its place, changes the fields of exactly the matching document, and nothing else. */
  lemma {:induction false} UpdateByIdFrame(s: seq<Student>, id: string, f: Fields)
    requires UniqueIds(s)
    ensures |UpdateById(s, id, f)| == |s|
    ensures forall i :: 0 <= i < |s| ==> UpdateById(s, id, f)[i] == if s[i].id == id then Student(id, f) else s[i]
    ensures UniqueIds(UpdateById(s, id, f))
    decreases |s|
  {
    if s != [] && s[0].id != id {
      UpdateByIdFrame(s[1..], id, f);
    }
  }

  /** Under unique ids, two documents of the store with the same id are the same document. */
  lemma UniqueIdsSameDocument(s: seq<Student>, a: Student, b: Student)
    requires UniqueIds(s) && a in s && b in s && a.id == b.id
    ensures a == b
  {
    var i :| 0 <= i < |s| && s[i] == a;
    var j :| 0 <= j < |s| && s[j] == b;
  }

  /** Under unique ids, looking up the id of any stored document yields exactly that document. */
  lemma FindByIdUnique(s: seq<Student>, x: Student)
    requires UniqueIds(s) && x in s
    ensures FindById(s, x.id) == Some(x)
  {
    assert HasId(s, x.id);
    UniqueIdsSameDocument(s, FindById(s, x.id).value, x);
  }

  /** After an update, looking the id up yields the new fields; every other id yields what it did before. */
  lemma FindAfterUpdate(s: seq<Student>, id: string, f: Fields, other: string)
    requires UniqueIds(s) && HasId(s, id)
    ensures FindById(UpdateById(s, id, f), id) == Some(Student(id, f))
    ensures other != id ==> FindById(UpdateById(s, id, f), other) == FindById(s, other)
  {
    UpdateByIdFrame(s, id, f);
    var u := UpdateById(s, id, f);
    var x :| x in s && x.id == id;
    var k :| 0 <= k < |s| && s[k] == x;
    assert u[k] == Student(id, f);
    FindByIdUnique(u, u[k]);
    if other != id {
      if HasId(s, other) {
        var y :| y in s && y.id == other;
        var j :| 0 <= j < |s| && s[j] == y;
        assert u[j] == y;
        FindByIdUnique(s, y);
        FindByIdUnique(u, y);
      } else {
        forall z | z in u ensures z.id != other {
          var j :| 0 <= j < |u| && u[j] == z;
          assert s[j] in s;
        }
      }
    }
  }

  /** Dropping the first document keeps ids unique. */
  lemma UniqueTail(s: seq<Student>)
    requires UniqueIds(s) && s != []
    ensures UniqueIds(s[1..])
    ensures forall x :: x in s[1..] ==> x.id != s[0].id
  {
    forall x | x in s[1..] ensures x.id != s[0].id {
      var m :| 0 <= m < |s[1..]| && s[1..][m] == x;
      assert s[m + 1] == x;
    }
  }

  /** Delete removes exactly one document when the id is present, and otherwise nothing. */
  lemma {:induction false} DeleteByIdLength(s: seq<Student>, id: string)
    ensures HasId(s, id) ==> |DeleteById(s, id)| == |s| - 1
    ensures !HasId(s, id) ==> DeleteById(s, id) == s
    decreases |s|
  {
    if s != [] {
      assert s == [s[0]] + s[1..];
      if s[0].id != id {
        DeleteByIdLength(s[1..], id);
      }
    }
  }

  /** What survives a delete: exactly the documents with another id. */
  lemma {:induction false} DeleteByIdMembers(s: seq<Student>, id: string)
    requires UniqueIds(s)
    ensures forall x :: x in DeleteById(s, id) <==> x in s && x.id != id
    decreases |s|
  {
    if s != [] {
      assert s == [s[0]] + s[1..];
      UniqueTail(s);
      if s[0].id != id {
        DeleteByIdMembers(s[1..], id);
      }
    }
  }

  /** A delete keeps ids unique. */
  lemma {:induction false} DeleteByIdUnique(s: seq<Student>, id: string)
    requires UniqueIds(s)
    ensures UniqueIds(DeleteById(s, id))
    decreases |s|
  {
    if s != [] {
      UniqueTail(s);
      if s[0].id != id {
        DeleteByIdUnique(s[1..], id);
        DeleteByIdMembers(s[1..], id);
        var d := DeleteById(s[1..], id);
        var r := [s[0]] + d;
        forall i, j | 0 <= i < j < |r| ensures r[i].id != r[j].id {
          assert r[j] == d[j - 1] && r[j] in d;
          if i > 0 {
            assert r[i] == d[i - 1];
          }
        }
      }
    }
  }

  /** After a delete the id is gone; every other id yields what it did before. */
  lemma FindAfterDelete(s: seq<Student>, id: string, other: string)
    requires UniqueIds(s)
    ensures FindById(DeleteById(s, id), id) == None
    ensures other != id ==> FindById(DeleteById(s, id), other) == FindById(s, other)
  {
    DeleteByIdMembers(s, id);
    DeleteByIdUnique(s, id);
    var d := DeleteById(s, id);
    if other != id && HasId(s, other) {
      var y :| y in s && y.id == other;
      FindByIdUnique(s, y);
      FindByIdUnique(d, y);
    }
  }

  /** Creating a document with a fresh id and then looking it up yields that document; other ids are unaffected. */
  lemma FindAfterInsert(s: seq<Student>, x: Student, other: string)
    requires UniqueIds(s) && !HasId(s, x.id)
    ensures UniqueIds(s + [x])
    ensures FindById(s + [x], x.id) == Some(x)
    ensures other != x.id ==> FindById(s + [x], other) == FindById(s, other)
  {
    var t := s + [x];
    forall i, j | 0 <= i < j < |t| ensures t[i].id != t[j].id {
      if j == |s| {
        assert t[i] in s;
      }
    }
    FindByIdUnique(t, x);
    if other != x.id && HasId(s, other) {
      var y :| y in s && y.id == other;
      FindByIdUnique(s, y);
      FindByIdUnique(t, y);
    }
  }
}
