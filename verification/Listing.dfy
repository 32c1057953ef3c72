// The order in which a room lists its participants: by name, and by id among namesakes
// (internal/room/state.go).

module Listing {
  import opened Order
  import opened Rules

  datatype Label = Label(name: string, id: Id)

  predicate NameLess(a: string, b: string) {
    if a == "" || b == "" then a == "" && b != ""
    else if a[0] != b[0] then a[0] < b[0]
    else NameLess(a[1..], b[1..])
  }

  predicate Earlier(a: Label, b: Label) {
    if a.name == b.name then Less(a.id, b.id) else NameLess(a.name, b.name)
  }

  lemma {:induction false} NameLessIsStrict(a: string)
    ensures !NameLess(a, a)
  {
    if a != "" {
      NameLessIsStrict(a[1..]);
    }
  }

  lemma {:induction false} NameLessIsTotal(a: string, b: string)
    requires a != b
    ensures NameLess(a, b) || NameLess(b, a)
  {
    if a != "" && b != "" && a[0] == b[0] {
      assert a == [a[0]] + a[1..] && b == [b[0]] + b[1..];
      NameLessIsTotal(a[1..], b[1..]);
    }
  }

  lemma {:induction false} NameLessIsTransitive(a: string, b: string, c: string)
    requires NameLess(a, b) && NameLess(b, c)
    ensures NameLess(a, c)
  {
    if a != "" && a[0] == b[0] == c[0] {
      NameLessIsTransitive(a[1..], b[1..], c[1..]);
    }
  }

  lemma EarlierIsTotal()
    ensures StrictTotal(Earlier)
  {
    forall a, b | a != b ensures Earlier(a, b) || Earlier(b, a) {
      if a.name != b.name {
        NameLessIsTotal(a.name, b.name);
      }
    }
    forall a, b, c | Earlier(a, b) && Earlier(b, c) ensures Earlier(a, c) {
      if a.name != b.name && b.name != c.name {
        NameLessIsTransitive(a.name, b.name, c.name);
        NameLessIsStrict(a.name);
        if a.name == c.name {
          assert false;
        }
      }
    }
  }

  // These, each once, in that order.
  ghost predicate IsListing(s: seq<Label>, labels: set<Label>) {
    Ordered(Earlier, s) && forall x :: x in s <==> x in labels
  }

  // There is exactly one such listing.
  lemma ListingIsUnique(s: seq<Label>, t: seq<Label>, labels: set<Label>)
    requires IsListing(s, labels) && IsListing(t, labels)
    ensures s == t
  {
    EarlierIsTotal();
    OrderIsUnique(Earlier, s, t);
  }

  function Inserted(s: seq<Label>, x: Label): seq<Label> {
    if s == [] || Earlier(x, s[0]) then [x] + s else [s[0]] + Inserted(s[1..], x)
  }

  lemma {:induction false} InsertedInOrder(s: seq<Label>, x: Label)
    requires StrictTotal(Earlier) && Ordered(Earlier, s) && x !in s
    ensures Ordered(Earlier, Inserted(s, x)) && forall y :: y in Inserted(s, x) <==> y == x || y in s
  {
    if s == [] {
    } else if Earlier(x, s[0]) {
      assert forall i :: 0 <= i < |s| ==> Earlier(x, s[i]);
    } else {
      InsertedInOrder(s[1..], x);
      var rest := Inserted(s[1..], x);
      assert s == [s[0]] + s[1..];
      forall i | 0 <= i < |rest| ensures Earlier(s[0], rest[i]) {
        assert rest[i] in rest;
        if rest[i] != x {
          var j :| 0 <= j < |s[1..]| && s[1..][j] == rest[i];
          assert s[j + 1] == rest[i];
        }
      }
    }
  }

  lemma {:induction false} ListingExists(labels: set<Label>)
    ensures exists s :: IsListing(s, labels)
  {
    if labels == {} {
      assert IsListing([], labels);
    } else {
      var x :| x in labels;
      ListingExists(labels - {x});
      var s :| IsListing(s, labels - {x});
      EarlierIsTotal();
      InsertedInOrder(s, x);
      assert IsListing(Inserted(s, x), labels);
    }
  }

  ghost function Listed(labels: set<Label>): (s: seq<Label>)
    ensures IsListing(s, labels)
  {
    ListingExists(labels);
    var s :| IsListing(s, labels);
    s
  }

  method ListByName(labels: set<Label>) returns (s: seq<Label>)
    ensures s == Listed(labels)
  {
    EarlierIsTotal();
    s := [];
    var todo := labels;
    while todo != {}
      invariant todo <= labels && IsListing(s, labels - todo)
    {
      var x :| x in todo;
      s := InsertInOrder(Earlier, s, x);
      todo := todo - {x};
    }
    assert labels - todo == labels;
    ListingIsUnique(s, Listed(labels), labels);
  }
}
