/** A broker list seen as a table from ids to grid keys, and how each list operation changes it. */
module Books {
  import opened Market
  import opened BrokerModel

  ghost predicate Distinct<T>(es: seq<Booked<T>>) {
    forall i, j :: 0 <= i < j < |es| ==> es[i].id != es[j].id
  }

  ghost function Ids<T>(es: seq<Booked<T>>): set<nat> {
    set e | e in es :: e.id
  }

  ghost function Tickets<T>(es: seq<Booked<T>>): map<nat, Option<Key>> {
    if es == [] then map[] else Tickets(es[..|es|-1])[es[|es|-1].id := es[|es|-1].gridKey]
  }

  /** A map from keys and a table of tickets are each other's inverse. */
  ghost predicate Inverse(m: map<Key, nat>, tickets: map<nat, Option<Key>>) {
    && (forall k :: k in m ==> m[k] in tickets && tickets[m[k]] == Some(k))
    && (forall id :: id in tickets ==> tickets[id].Some? && tickets[id].value in m && m[tickets[id].value] == id)
  }

  lemma InverseAdd(m: map<Key, nat>, tickets: map<nat, Option<Key>>, k: Key, id: nat)
    requires Inverse(m, tickets) && k !in m && id !in tickets
    ensures Inverse(m[k := id], tickets[id := Some(k)])
  {
  }

  lemma InverseRemove(m: map<Key, nat>, tickets: map<nat, Option<Key>>, k: Key)
    requires Inverse(m, tickets) && k in m
    ensures Inverse(m - {k}, tickets - {m[k]})
  {
  }

  /** Inverse tables have as many keys as tickets. */
  lemma {:induction false} InverseCount(m: map<Key, nat>, tickets: map<nat, Option<Key>>)
    requires Inverse(m, tickets)
    ensures |m| == |tickets|
    decreases |m|
  {
    if m.Keys == {} {
      assert m == map[];
      assert forall id :: id !in tickets;
      assert tickets == map[];
    } else {
      var k :| k in m.Keys;
      InverseRemove(m, tickets, k);
      assert (m - {k}).Keys == m.Keys - {k};
      assert (tickets - {m[k]}).Keys == tickets.Keys - {m[k]};
      InverseCount(m - {k}, tickets - {m[k]});
    }
  }

  /** A table is determined by the entries it is the table of. */
  ghost predicate TableOf<T>(table: map<nat, Option<Key>>, es: seq<Booked<T>>) {
    table.Keys == Ids(es) && forall e :: e in es ==> e.id in table && table[e.id] == e.gridKey
  }

  lemma DistinctPrefix<T>(es: seq<Booked<T>>)
    requires Distinct(es) && es != []
    ensures Distinct(es[..|es|-1])
    ensures es == es[..|es|-1] + [es[|es|-1]]
    ensures es[|es|-1].id !in Ids(es[..|es|-1])
    ensures Ids(es) == Ids(es[..|es|-1]) + {es[|es|-1].id}
  {
  }

  lemma TicketsAre<T>(es: seq<Booked<T>>)
    requires Distinct(es)
    ensures forall e :: e in es ==> e.id in Tickets(es) && Tickets(es)[e.id] == e.gridKey
    ensures Tickets(es).Keys == Ids(es)
    ensures |Tickets(es)| == |es|
  {
  }

  lemma TicketsAppend<T>(es: seq<Booked<T>>, e: Booked<T>)
    ensures Tickets(es + [e]) == Tickets(es)[e.id := e.gridKey]
  {
  }

  lemma IdsAppend<T>(table: map<nat, Option<Key>>, es: seq<Booked<T>>, e: Booked<T>)
    ensures Ids(es + [e]) == Ids(es) + {e.id}
    ensures table - Ids(es + [e]) == table - Ids(es) - {e.id}
  {
  }

  lemma {:induction false} TicketsConcat<T>(es: seq<Booked<T>>, fs: seq<Booked<T>>)
    ensures Tickets(es + fs) == Tickets(es) + Tickets(fs)
  {
    if fs == [] {
      assert es + fs == es;
    } else {
      var init, last := fs[..|fs|-1], fs[|fs|-1];
      assert es + fs == (es + init) + [last];
      TicketsConcat(es, init);
      TicketsAppend(es + init, last);
    }
  }

  lemma {:induction false} RemoveMember<T>(es: seq<T>, e: T, x: T)
    requires x in RemoveFirst(es, e)
    ensures x in es
  {
    if es[0] != e && x != es[0] {
      RemoveMember(es[1..], e, x);
    }
  }

  lemma {:induction false} RemoveIsExact<T>(es: seq<Booked<T>>, e: Booked<T>)
    requires Distinct(es) && e in es
    ensures Distinct(RemoveFirst(es, e))
    ensures forall x :: x in RemoveFirst(es, e) ==> x in es && x.id != e.id
    ensures forall x :: x in es && x.id != e.id ==> x in RemoveFirst(es, e)
    ensures RemoveById(es, e.id) == RemoveFirst(es, e)
  {
    if es[0] == e {
      assert forall x :: x in es <==> x == es[0] || x in es[1..];
    } else {
      var rest := es[1..];
      assert es == [es[0]] + rest;
      RemoveIsExact(rest, e);
      var i :| 0 <= i < |rest| && rest[i] == e;
      assert es[0].id != es[i + 1].id;
      var r := RemoveFirst(rest, e);
      forall j | 0 <= j < |r| ensures es[0].id != r[j].id {
        RemoveMember(rest, e, r[j]);
        var l :| 0 <= l < |rest| && rest[l] == r[j];
        assert es[0].id != es[l + 1].id;
      }
    }
  }

  lemma RemoveIds<T>(es: seq<Booked<T>>, e: Booked<T>)
    requires Distinct(es) && e in es
    ensures Ids(RemoveFirst(es, e)) == Ids(es) - {e.id}
  {
    var r := RemoveFirst(es, e);
    RemoveIsExact(es, e);
    forall id | id in Ids(r) ensures id in Ids(es) - {e.id} {
      var x :| x in r && x.id == id;
      assert x in es;
    }
    forall id | id in Ids(es) - {e.id} ensures id in Ids(r) {
      var x :| x in es && x.id == id;
      assert x in r;
    }
  }

  lemma TableRemove<T>(es: seq<Booked<T>>, e: Booked<T>, r: seq<Booked<T>>,
                       all: map<nat, Option<Key>>, kept: map<nat, Option<Key>>)
    requires TableOf(all, es) && TableOf(kept, r)
    requires Ids(r) == Ids(es) - {e.id}
    requires forall x :: x in r ==> x in es
    ensures kept == all - {e.id}
  {
  }

  lemma RemoveTickets<T>(es: seq<Booked<T>>, e: Booked<T>)
    requires Distinct(es) && e in es
    ensures Distinct(RemoveFirst(es, e))
    ensures Tickets(RemoveFirst(es, e)) == Tickets(es) - {e.id}
  {
    RemoveIsExact(es, e);
    RemoveIds(es, e);
    TicketsAre(es);
    TicketsAre(RemoveFirst(es, e));
    TableRemove(es, e, RemoveFirst(es, e), Tickets(es), Tickets(RemoveFirst(es, e)));
  }

  /** Stamping the entry just appended. */
  lemma {:induction false} StampLast<T>(es: seq<Booked<T>>, e: Booked<T>, k: Key)
    requires forall x :: x in es ==> x.id != e.id
    ensures Stamp(es + [e], e.id, k) == es + [e.(gridKey := Some(k))]
  {
    if es != [] {
      assert (es + [e])[1..] == es[1..] + [e];
      StampLast(es[1..], e, k);
    }
  }

  /** Stamping an entry that already carries the key. */
  lemma {:induction false} StampSame<T>(es: seq<Booked<T>>, e: Booked<T>, k: Key)
    requires Distinct(es) && e in es && e.gridKey == Some(k)
    ensures Stamp(es, e.id, k) == es
  {
    var i :| 0 <= i < |es| && es[i] == e;
    if es[0].id == e.id {
      assert i == 0;
    } else {
      StampSame(es[1..], e, k);
    }
  }

  lemma FindIsTheTrade(ts: seq<OpenTrade>, t: OpenTrade)
    requires Distinct(ts) && t in ts
    ensures FindTrade(ts, t.id) == Some(t)
  {
  }
}
