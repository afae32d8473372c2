/** The values of the storyteller: saved story records, the two list updates the
    handlers apply to the saved collection (newest-first insertion and removal by
    id), and the placeholder text the generation callback produces. */
module Stories {

  datatype Option<T> = None | Some(value: T)

  /** One saved story, as built by saveStory: the id and the date come from the
      clock, the theme and the content from the draft. Records are never changed
      after they are built. */
  datatype Story = Story(id: string, theme: string, content: string, date: string)

  /** Some record of `list` has id `id`. */
  predicate HasId(list: seq<Story>, id: string)
  {
    exists i :: 0 <= i < |list| && list[i].id == id
  }

  /** No two records of `list` share an id. The source does not guarantee this
      (ids are millisecond timestamps); it holds as long as callers supply fresh ids. */
  predicate UniqueIds(list: seq<Story>)
  {
    forall i, j :: 0 <= i < j < |list| ==> list[i].id != list[j].id
  }

  /** `a` is `b` with some records dropped, the rest in their original order. */
  predicate IsSubsequence(a: seq<Story>, b: seq<Story>)
  {
    if a == [] then true
    else if b == [] then false
    else (a[0] == b[0] && IsSubsequence(a[1..], b[1..])) || IsSubsequence(a, b[1..])
  }

  /** The saved-list update of saveStory: the new record goes in front. */
  function Prepend(s: Story, list: seq<Story>): (r: seq<Story>)
    ensures |r| == |list| + 1 && r[0] == s && r[1..] == list
  {
    [s] + list
  }

  /** The saved-list update of deleteStory: keep the records whose id differs. */
  function RemoveById(list: seq<Story>, id: string): (r: seq<Story>)
    ensures |r| <= |list|
    ensures forall s :: s in r <==> s in list && s.id != id
  {
    if list == [] then []
    else if list[0].id == id then RemoveById(list[1..], id)
    else [list[0]] + RemoveById(list[1..], id)
  }

  // ---------------------------------------------------------------------------
  // Newest-first insertion

  /** The new record is first and every old record moves one place back. */
  lemma PrependNewestFirst(s: Story, list: seq<Story>)
    ensures |Prepend(s, list)| == |list| + 1
    ensures Prepend(s, list)[0] == s
    ensures forall i :: 0 <= i < |list| ==> Prepend(s, list)[i + 1] == list[i]
  {
  }

  /** Two saves in a row list the second record before the first. */
  lemma PrependTwice(a: Story, b: Story, list: seq<Story>)
    ensures Prepend(b, Prepend(a, list)) == [b, a] + list
  {
  }

  /** Prepending keeps ids unique exactly when the new id is fresh. */
  lemma PrependUniqueIds(s: Story, list: seq<Story>)
    ensures UniqueIds(Prepend(s, list)) <==> UniqueIds(list) && !HasId(list, s.id)
  {
    var r := Prepend(s, list);
    if UniqueIds(r) {
      forall i | 0 <= i < |list| ensures list[i].id != s.id {
        assert r[0] == s && r[i + 1] == list[i];
      }
      forall i, j | 0 <= i < j < |list| ensures list[i].id != list[j].id {
        assert r[i + 1] == list[i] && r[j + 1] == list[j];
      }
    }
  }

  // ---------------------------------------------------------------------------
  // Removal by id

  /** Deleting an id no record has leaves the list as it was. */
  lemma {:induction false} RemoveAbsent(list: seq<Story>, id: string)
    requires !HasId(list, id)
    ensures RemoveById(list, id) == list
  {
    if list != [] {
      assert list[0].id != id;
      assert !HasId(list[1..], id) by {
        forall i | 0 <= i < |list[1..]| ensures list[1..][i].id != id {
          assert list[1..][i] == list[i + 1];
        }
      }
      RemoveAbsent(list[1..], id);
    }
  }

  /** After a removal no record has the removed id. */
  lemma RemoveLeavesNoMatch(list: seq<Story>, id: string)
    ensures !HasId(RemoveById(list, id), id)
  {
  }

  /** Deleting the same id twice changes nothing the second time. */
  lemma RemoveIdempotent(list: seq<Story>, id: string)
    ensures RemoveById(RemoveById(list, id), id) == RemoveById(list, id)
  {
  }

  /** Removal works record by record: it distributes over concatenation. */
  lemma {:induction false} RemoveAppend(a: seq<Story>, b: seq<Story>, id: string)
    ensures RemoveById(a + b, id) == RemoveById(a, id) + RemoveById(b, id)
  {
    if a == [] {
      assert a + b == b;
    } else {
      assert (a + b)[0] == a[0];
      assert (a + b)[1..] == a[1..] + b;
      RemoveAppend(a[1..], b, id);
    }
  }

  /** The kept records appear in their original order. */
  lemma {:induction false} RemoveIsSubsequence(list: seq<Story>, id: string)
    ensures IsSubsequence(RemoveById(list, id), list)
  {
    if list != [] {
      RemoveIsSubsequence(list[1..], id);
      var r := RemoveById(list, id);
      if list[0].id != id {
        assert r[0] == list[0] && r[1..] == RemoveById(list[1..], id);
      }
    }
  }

  /** Every record whose id differs is kept as often as it occurs; none with the id is. */
  lemma {:induction false} RemoveMultiplicity(list: seq<Story>, id: string, s: Story)
    ensures multiset(RemoveById(list, id))[s] == if s.id == id then 0 else multiset(list)[s]
  {
    if list != [] {
      RemoveMultiplicity(list[1..], id, s);
      assert list == [list[0]] + list[1..];
      assert multiset(list) == multiset{list[0]} + multiset(list[1..]);
    }
  }

  /** Deletions of two ids can be applied in either order. */
  lemma {:induction false} RemoveCommutes(list: seq<Story>, a: string, b: string)
    ensures RemoveById(RemoveById(list, a), b) == RemoveById(RemoveById(list, b), a)
  {
    if list != [] {
      RemoveCommutes(list[1..], a, b);
    }
  }

  /** Deleting keeps the ids unique. */
  lemma {:induction false} RemoveUniqueIds(list: seq<Story>, id: string)
    requires UniqueIds(list)
    ensures UniqueIds(RemoveById(list, id))
  {
    if list != [] {
      var tail := list[1..];
      assert list == Prepend(list[0], tail);
      PrependUniqueIds(list[0], tail);
      RemoveUniqueIds(tail, id);
      if list[0].id != id {
        var rt := RemoveById(tail, id);
        assert !HasId(rt, list[0].id) by {
          forall i | 0 <= i < |rt| ensures rt[i].id != list[0].id {
            assert rt[i] in rt;
            var k :| 0 <= k < |tail| && tail[k] == rt[i];
          }
        }
        PrependUniqueIds(list[0], rt);
      }
    }
  }

  /** With unique ids, deleting an id that is present removes exactly one record. */
  lemma {:induction false} RemovePresentShrinksByOne(list: seq<Story>, id: string)
    requires UniqueIds(list) && HasId(list, id)
    ensures |RemoveById(list, id)| == |list| - 1
  {
    var tail := list[1..];
    assert list == Prepend(list[0], tail);
    PrependUniqueIds(list[0], tail);
    if list[0].id == id {
      RemoveAbsent(tail, id);
    } else {
      var i :| 0 <= i < |list| && list[i].id == id;
      assert tail[i - 1] == list[i];
      RemovePresentShrinksByOne(tail, id);
    }
  }

  /** Deleting the record just saved under a fresh id gives back the list before the save. */
  lemma RemoveAfterPrepend(s: Story, list: seq<Story>)
    requires !HasId(list, s.id)
    ensures RemoveById(Prepend(s, list), s.id) == list
  {
    assert Prepend(s, list)[1..] == list;
    RemoveAbsent(list, s.id);
  }

  /** Deleting another id leaves the newest record in front. */
  lemma RemoveAfterPrependOther(s: Story, list: seq<Story>, id: string)
    requires s.id != id
    ensures RemoveById(Prepend(s, list), id) == Prepend(s, RemoveById(list, id))
  {
  }

  // ---------------------------------------------------------------------------
  // The placeholder text of the generation callback

  const Opening: string := "Once upon a time in a "

  const Closing: string :=
    " world, there lived a curious child named Alex. \n"
    + "      Every day, Alex would explore the wonders of this magical place, discovering new friends and adventures.\n"
    + "      One day, something extraordinary happened that would change everything...\n"
    + "      \n"
    + "      Alex found a glowing key that opened a door to another dimension! Through this door,\n"
    + "      incredible creatures and landscapes awaited. It was the beginning of the greatest adventure ever!"

  /** `part` occurs in `text` starting at position `i`. */
  predicate OccursAt(text: string, part: string, i: int)
  {
    0 <= i <= |text| - |part| && text[i..i + |part|] == part
  }

  /** `part` occurs somewhere inside `text`. */
  ghost predicate Contains(text: string, part: string)
  {
    exists i :: OccursAt(text, part, i)
  }

  /** The story the generation callback writes for `theme`: never empty, and the
      theme occurs in it. */
  function GeneratedStory(theme: string): (r: string)
    ensures r != []
    ensures Contains(r, theme)
  {
    var r := Opening + theme + Closing;
    assert OccursAt(r, theme, |Opening|);
    r
  }

  /** Recovers the theme from a text of the generated shape. */
  function ThemeOf(text: string): (r: Option<string>)
  {
    if |Opening| + |Closing| <= |text|
       && text[..|Opening|] == Opening
       && text[|text| - |Closing|..] == Closing
    then Some(text[|Opening|..|text| - |Closing|])
    else None
  }

  /** The theme can be read back from the generated story, so different themes
      give different stories. */
  lemma ThemeOfGenerated(theme: string)
    ensures ThemeOf(GeneratedStory(theme)) == Some(theme)
  {
  }
}
