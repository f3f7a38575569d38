/** The order a failover cascade asks providers in. */
module Failover {
  import opened Wrappers
  import Lists

  /** The selected provider first, then each time the first of `order` not asked yet. */
  ghost predicate BestFirst(selected: string, order: seq<string>, asked: seq<string>) {
    && (asked != [] ==> asked[0] == selected)
    && (forall i | 1 <= i < |asked| :: Lists.FirstOutside(order, Lists.Elements(asked[..i])) == Some(asked[i]))
  }

  ghost predicate IsNext(selected: string, order: seq<string>, asked: seq<string>, id: string) {
    if asked == [] then id == selected else Lists.FirstOutside(order, Lists.Elements(asked)) == Some(id)
  }

  /** Nobody is asked twice. */
  lemma NoneTwice(selected: string, order: seq<string>, asked: seq<string>, i: nat, j: nat)
    requires BestFirst(selected, order, asked) && i < j < |asked|
    ensures asked[i] != asked[j]
  {
    assert asked[..j][i] == asked[i];
    assert Lists.FirstOutside(order, Lists.Elements(asked[..j])) == Some(asked[j]);
  }

  lemma FurtherIsListed(selected: string, order: seq<string>, asked: seq<string>, i: nat)
    requires BestFirst(selected, order, asked) && 1 <= i < |asked|
    ensures asked[i] in order
  {
    assert Lists.FirstOutside(order, Lists.Elements(asked[..i])) == Some(asked[i]);
  }

  lemma OnlyTheSelected(selected: string, asked: seq<string>)
    requires BestFirst(selected, [], asked)
    ensures |asked| <= 1
  {
    if |asked| > 1 { FurtherIsListed(selected, [], asked, 1); }
  }

  lemma OneMore(selected: string, order: seq<string>, asked: seq<string>, id: string)
    requires BestFirst(selected, order, asked) && IsNext(selected, order, asked, id)
    ensures BestFirst(selected, order, asked + [id])
    ensures Lists.Elements(asked + [id]) == Lists.Elements(asked) + {id}
  {
    var all := asked + [id];
    forall i | 1 <= i < |all|
      ensures Lists.FirstOutside(order, Lists.Elements(all[..i])) == Some(all[i])
    {
      if i < |asked| { assert all[..i] == asked[..i]; } else { assert all[..i] == asked; }
    }
  }
}
