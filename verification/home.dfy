/** The rotating headline on the home page. */
module Home {

  const Texts := ["Professional Web Developer", "UI/UX Designer", "Digital Innovator"]

  /** The index the rotation starts at. */
  const InitialIndex: nat := 0

  /** One interval tick: move to the next headline, wrapping round. */
  function Tick(i: nat): (j: nat)
    ensures j < |Texts|
    ensures i < |Texts| - 1 ==> j == i + 1
    ensures i == |Texts| - 1 ==> j == 0
  {
    (i + 1) % |Texts|
  }

  /** The index after `n` ticks from `i`. */
  function Ticks(i: nat, n: nat): nat
    decreases n
  {
    if n == 0 then i else Ticks(Tick(i), n - 1)
  }

  /** The headline shown for an index of the rotation. */
  function Headline(i: nat): string
    requires i < |Texts|
  {
    Texts[i]
  }

  /** After `n` ticks from the start the index is `n mod 3`, so a headline
      is always defined. */
  lemma {:induction false} TicksFromStart(n: nat)
    ensures Ticks(InitialIndex, n) == n % |Texts|
    ensures Ticks(InitialIndex, n) < |Texts|
  {
    TicksCount(InitialIndex, n);
  }

  lemma {:induction false} TicksCount(i: nat, n: nat)
    requires i < |Texts|
    ensures Ticks(i, n) == (i + n) % |Texts|
    decreases n
  {
    if n > 0 {
      TicksCount(Tick(i), n - 1);
    }
  }

  /** Three ticks bring the rotation back to where it was. */
  lemma ThreeTicksReturn(i: nat)
    requires i < |Texts|
    ensures Ticks(i, 3) == i
  {
  }
}
