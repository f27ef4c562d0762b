/** World states, as clients of a battleground hold them: by number. Every battleground has icons
    and a table that gives each of them its number. */
module WorldStates {

  /** The icons a battleground draws, and their numbers. */
  datatype Table<!Icon> = Table(drawn: Icon -> bool, id: Icon -> nat)

  predicate Apart<Icon(==)>(t: Table<Icon>, i: Icon, j: Icon) {
    t.drawn(i) && t.drawn(j) && t.id(i) == t.id(j) ==> i == j
  }

  /** No two icons share a number. */
  ghost predicate Injective<Icon(!new)>(t: Table<Icon>) {
    forall i, j :: Apart(t, i, j)
  }

  type Numbering<!Icon(!new)> = t: Table<Icon> | Injective(t)
    ghost witness Table((i: Icon) => false, (i: Icon) => 0)

  /** What a client holds under a number; 0 if it was never sent any. */
  function Held(client: map<nat, int>, id: nat): int {
    if id in client then client[id] else 0
  }

  /** What a client shows for an icon. */
  function Show<Icon>(t: Table<Icon>, client: map<nat, int>, i: Icon): int {
    Held(client, t.id(i))
  }

  /** The numbers of the table. */
  ghost predicate Known<Icon(!new)>(t: Table<Icon>, id: nat) {
    exists i :: t.drawn(i) && t.id(i) == id
  }

  /** A client that holds no number outside the table. */
  ghost predicate Clean<Icon(!new)>(t: Table<Icon>, client: map<nat, int>) {
    forall id {:trigger Known(t, id)} :: id in client ==> Known(t, id)
  }

  /** A value sent under the number of one icon is shown there and nowhere else. */
  lemma StoreShows<Icon(!new)>(t: Numbering<Icon>, client: map<nat, int>, i: Icon, v: int)
    requires t.drawn(i)
    ensures Clean(t, client) ==> Clean(t, client[t.id(i) := v])
    ensures forall j :: t.drawn(j) ==> Show(t, client[t.id(i) := v], j) == if j == i then v else Show(t, client, j)
  {
    forall j | t.drawn(j) ensures Show(t, client[t.id(i) := v], j) == if j == i then v else Show(t, client, j) {
      assert Apart(t, i, j);
    }
  }

  /** Only numbers of the table are ever sent. */
  function Store<Icon(!new)>(t: Numbering<Icon>, client: map<nat, int>, i: Icon, v: int): (r: map<nat, int>)
    requires t.drawn(i)
    ensures Clean(t, client) ==> Clean(t, r)
    ensures forall j :: t.drawn(j) ==> Show(t, r, j) == if j == i then v else Show(t, client, j)
  {
    StoreShows(t, client, i, v);
    client[t.id(i) := v]
  }

  /** Two clients that show every icon alike hold the same under every number there is. */
  lemma SameScreen<Icon(!new)>(t: Numbering<Icon>, client: map<nat, int>, fill: map<nat, int>, id: nat)
    requires Clean(t, client) && Clean(t, fill)
    requires forall i :: t.drawn(i) ==> Show(t, client, i) == Show(t, fill, i)
    ensures Held(client, id) == Held(fill, id)
  {
    if Known(t, id) {
      var i :| t.drawn(i) && t.id(i) == id;
      assert Show(t, client, i) == Show(t, fill, i);
    }
  }
}
