/**
 * The model picker (src/components/LLMSelector.tsx): which configurations
 * are offered, and how clicking one changes the selection. The callback
 * `onSelectLLMs` and `alert` become the two cases of `Toggle`.
 */
module Selector {
  import opened Seqs
  import opened Decimal

  datatype SelectorConfig = SelectorConfig(id: string, name: string, provider: string, model: string, isActive: bool)

  /** What a click does: hand a new selection to the parent, or show an alert and keep the old one. */
  datatype Toggle = Select(ids: seq<string>) | LimitAlert(message: string)

  /** The configurations offered, in the order given: the active ones. */
  function ActiveLLMs(configs: seq<SelectorConfig>): (active: seq<SelectorConfig>)
    ensures |active| <= |configs|
    ensures forall c :: c in active <==> c in configs && c.isActive
  {
    if configs == [] then []
    else
      assert forall c :: c in configs <==> c == configs[0] || c in configs[1..];
      (if configs[0].isActive then [configs[0]] else []) + ActiveLLMs(configs[1..])
  }

  /** Filtering keeps the order: offering two lists one after the other offers each list's active configurations in turn. */
  lemma {:induction false} ActiveLLMsAppend(a: seq<SelectorConfig>, b: seq<SelectorConfig>)
    ensures ActiveLLMs(a + b) == ActiveLLMs(a) + ActiveLLMs(b)
  {
    if a == [] {
      assert a + b == b;
    } else {
      assert (a + b)[1..] == a[1..] + b;
      ActiveLLMsAppend(a[1..], b);
    }
  }

  /** `selectedLLMs.filter((llmId) => llmId !== id)`. */
  function Without(selected: seq<string>, id: string): (rest: seq<string>)
    ensures |rest| <= |selected|
    ensures forall x :: x in rest <==> x in selected && x != id
  {
    if selected == [] then []
    else
      assert forall x :: x in selected <==> x == selected[0] || x in selected[1..];
      (if selected[0] != id then [selected[0]] else []) + Without(selected[1..], id)
  }

  /** Removing an id that is not selected changes nothing. */
  lemma {:induction false} WithoutAbsent(selected: seq<string>, id: string)
    requires id !in selected
    ensures Without(selected, id) == selected
  {
    if selected != [] {
      WithoutAbsent(selected[1..], id);
    }
  }

  /** Removing keeps the other ids in their order: removal commutes with appending. */
  lemma {:induction false} WithoutAppend(a: seq<string>, b: seq<string>, id: string)
    ensures Without(a + b, id) == Without(a, id) + Without(b, id)
  {
    if a == [] {
      assert a + b == b;
    } else {
      assert (a + b)[1..] == a[1..] + b;
      WithoutAppend(a[1..], b, id);
    }
  }

  /** A selection without repeats loses exactly one entry when a selected id is removed. */
  lemma {:induction false} WithoutDistinct(selected: seq<string>, id: string)
    requires Distinct(selected)
    ensures Distinct(Without(selected, id))
    ensures id in selected ==> |Without(selected, id)| == |selected| - 1
  {
    if selected != [] {
      var tail := selected[1..];
      assert Distinct(tail) by {
        forall i, j | 0 <= i < j < |tail| ensures tail[i] != tail[j] {
          assert tail[i] == selected[i + 1] && tail[j] == selected[j + 1];
        }
      }
      assert selected[0] !in tail by {
        forall m | 0 <= m < |tail| ensures tail[m] != selected[0] {
          assert tail[m] == selected[m + 1];
        }
      }
      WithoutDistinct(tail, id);
      if selected[0] == id {
        WithoutAbsent(tail, id);
      } else {
        var l := Without(selected, id);
        var rest := Without(tail, id);
        assert l == [selected[0]] + rest;
        forall i, j | 0 <= i < j < |l| ensures l[i] != l[j] {
          assert l[j] == rest[j - 1] && rest[j - 1] in rest;
          if i > 0 {
            assert l[i] == rest[i - 1];
          }
        }
      }
    }
  }

  const LimitPrefix := "You can select a maximum of "
  const LimitSuffix := " LLMs"

  /** The alert text; the number in it reads back as the cap. */
  function LimitMessage(maxSelection: int): (m: string)
    ensures |m| > |LimitPrefix| + |LimitSuffix|
    ensures m[..|LimitPrefix|] == LimitPrefix && m[|m| - |LimitSuffix|..] == LimitSuffix
    ensures ParseInt(m[|LimitPrefix|..|m| - |LimitSuffix|]) == maxSelection
    ensures m == LimitPrefix + IntToString(maxSelection) + LimitSuffix
  {
    var digits := IntToString(maxSelection);
    ParseIntToString(maxSelection);
    var m := LimitPrefix + digits + LimitSuffix;
    assert m[|LimitPrefix|..|m| - |LimitSuffix|] == digits;
    m
  }

  /**
   * `handleToggle`: a selected id is removed; an unselected one is appended
   * unless the selection already holds `maxSelection` ids, in which case the
   * alert names the limit and the selection is not touched.
   */
  function HandleToggle(selected: seq<string>, id: string, maxSelection: int): (t: Toggle)
    ensures id in selected ==> t == Select(Without(selected, id))
    ensures id in selected ==> id !in t.ids && |t.ids| <= |selected|
    ensures id !in selected ==> (t.LimitAlert? <==> |selected| >= maxSelection)
    ensures id !in selected && t.Select? ==> t.ids == selected + [id]
    ensures t.LimitAlert? ==> t.message == LimitMessage(maxSelection)
  {
    if id in selected then
      Select(Without(selected, id))
    else if |selected| >= maxSelection then
      LimitAlert(LimitMessage(maxSelection))
    else
      Select(selected + [id])
  }

  /** The selection after a click. */
  function Selection(selected: seq<string>, t: Toggle): seq<string> {
    match t
    case Select(ids) => ids
    case LimitAlert(_) => selected
  }

  /** A selection whose size is at most the cap: with a cap of 0 or more, nothing is ever repeated and the cap is never exceeded. */
  predicate WithinLimit(selected: seq<string>, maxSelection: int) {
    Distinct(selected) && |selected| <= maxSelection
  }

  /** Every click keeps a selection without repeats within the cap. */
  lemma ToggleKeepsLimit(selected: seq<string>, id: string, maxSelection: int)
    requires WithinLimit(selected, maxSelection)
    ensures WithinLimit(Selection(selected, HandleToggle(selected, id, maxSelection)), maxSelection)
  {
    if id in selected {
      WithoutDistinct(selected, id);
    } else if |selected| < maxSelection {
      var s := selected + [id];
      forall i, j | 0 <= i < j < |s| ensures s[i] != s[j] {
        if j == |selected| {
          assert s[i] == selected[i] && selected[i] in selected;
        } else {
          assert s[i] == selected[i] && s[j] == selected[j];
        }
      }
    }
  }

  /** A button is highlighted while its id is selected; a click flips it, except when the alert fires. */
  lemma ToggleFlipsHighlight(selected: seq<string>, id: string, maxSelection: int)
    ensures var t := HandleToggle(selected, id, maxSelection);
      (id in Selection(selected, t)) == (if t.Select? then id !in selected else id in selected)
  {
    var t := HandleToggle(selected, id, maxSelection);
    if id !in selected && t.Select? {
      assert Selection(selected, t)[|selected|] == id;
    }
  }

  /** Clicking an unselected id twice, below the cap, restores the original selection. */
  lemma {:induction false} DoubleToggleRestores(selected: seq<string>, id: string, maxSelection: int)
    requires id !in selected && |selected| < maxSelection
    ensures var once := Selection(selected, HandleToggle(selected, id, maxSelection));
      Selection(once, HandleToggle(once, id, maxSelection)) == selected
  {
    var once := selected + [id];
    assert HandleToggle(selected, id, maxSelection) == Select(once);
    assert id in once by { assert once[|selected|] == id; }
    WithoutAppend(selected, [id], id);
    WithoutAbsent(selected, id);
    assert Without([id], id) == [];
  }
}
