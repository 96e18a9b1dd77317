/**
 * Construction of the option catalog (translatedOptions in
 * src/fields/CountrySelectBaseOptionsField.php): every label of the fixed
 * table is passed through the translator, and the rows are then sorted in
 * place by label with strcasecmp.
 *
 * The translator (Craft::t with the 'country-select' category) is any total
 * function from the English label to the localised one; it is a parameter.
 */
module Catalog {
  import opened CaseInsensitive
  import opened CountryTable

  /** The table with every label translated, still in table order. */
  function Translated(t: string -> string): seq<CountryOption>
  {
    seq(|Table()|, i requires 0 <= i < |Table()| => CountryOption(Table()[i].value, t(Table()[i].caption)))
  }

  /** The usort comparator says a may stay before b. */
  predicate InOrder(a: CountryOption, b: CountryOption)
  {
    StrCaseCmp(a.caption, b.caption) <= 0
  }

  /** Adjacent rows are non-decreasing under strcasecmp of their labels. */
  predicate SortedByLabel(s: seq<CountryOption>)
  {
    forall i :: 0 < i < |s| ==> InOrder(s[i - 1], s[i])
  }

  /** What translatedOptions returns: the translated table, reordered and sorted by label. */
  predicate IsCatalog(options: seq<CountryOption>, t: string -> string)
  {
    multiset(options) == multiset(Translated(t)) && SortedByLabel(options)
  }

  /**
   * usort with the strcasecmp comparator, in place. PHP does not promise a
   * particular algorithm or a stable result; this is an insertion sort, and
   * only what usort promises is stated: sorted, and a permutation.
   */
  method SortByLabel(a: array<CountryOption>)
    modifies a
    ensures SortedByLabel(a[..])
    ensures multiset(a[..]) == old(multiset(a[..]))
  {
    var i := 0;
    while i < a.Length
      invariant 0 <= i <= a.Length
      invariant forall k :: 0 < k < i ==> InOrder(a[k - 1], a[k])
      invariant multiset(a[..]) == old(multiset(a[..]))
    {
      InsertLeft(a, i);
      i := i + 1;
    }
  }

  /** One insertion step: a[i] moves left into the sorted prefix a[..i]. */
  method InsertLeft(a: array<CountryOption>, i: nat)
    requires i < a.Length
    requires forall k :: 0 < k < i ==> InOrder(a[k - 1], a[k])
    modifies a
    ensures forall k :: 0 < k <= i ==> InOrder(a[k - 1], a[k])
    ensures multiset(a[..]) == old(multiset(a[..]))
  {
    var j := i;
    while j > 0 && StrCaseCmp(a[j - 1].caption, a[j].caption) > 0
      invariant 0 <= j <= i
      invariant forall k :: 0 < k < j ==> InOrder(a[k - 1], a[k])
      invariant forall k :: j + 1 < k <= i ==> InOrder(a[k - 1], a[k])
      invariant 0 < j < i ==> InOrder(a[j - 1], a[j + 1])
      invariant j < i ==> InOrder(a[j], a[j + 1])
      invariant multiset(a[..]) == old(multiset(a[..]))
    {
      StrCaseCmpSwapped(a[j - 1].caption, a[j].caption);
      SwapAdjacent(a, j);
      j := j - 1;
    }
  }

  /** Exchange a[j - 1] and a[j]. */
  method SwapAdjacent(a: array<CountryOption>, j: nat)
    requires 0 < j < a.Length
    modifies a
    ensures a[j - 1] == old(a[j]) && a[j] == old(a[j - 1])
    ensures forall k :: 0 <= k < a.Length && k != j - 1 && k != j ==> a[k] == old(a[k])
    ensures multiset(a[..]) == old(multiset(a[..]))
  {
    a[j - 1], a[j] := a[j], a[j - 1];
  }

  /** translatedOptions: the translated table sorted by label. */
  method TranslatedOptions(t: string -> string) returns (countries: seq<CountryOption>)
    ensures IsCatalog(countries, t)
  {
    var rows := Translated(t);
    var a := new CountryOption[|rows|](i requires 0 <= i < |rows| => rows[i]);
    assert a[..] == rows;
    SortByLabel(a);
    countries := a[..];
  }

  /** Adjacent order extends to every pair, by transitivity of strcasecmp. */
  lemma {:induction false} SortedPairwise(s: seq<CountryOption>)
    requires SortedByLabel(s)
    ensures forall i, j :: 0 <= i < j < |s| ==> InOrder(s[i], s[j])
    decreases |s|
  {
    if |s| > 1 {
      var init := s[..|s| - 1];
      assert SortedByLabel(init) by {
        forall k | 0 < k < |init| ensures InOrder(init[k - 1], init[k]) {
          assert init[k - 1] == s[k - 1] && init[k] == s[k];
        }
      }
      SortedPairwise(init);
      var last := |s| - 1;
      forall i, j | 0 <= i < j < |s| ensures InOrder(s[i], s[j]) {
        if j < last {
          assert init[i] == s[i] && init[j] == s[j];
        } else if i < last - 1 {
          assert init[i] == s[i] && init[last - 1] == s[last - 1];
          StrCaseCmpTransitive(s[i].caption, s[last - 1].caption, s[last].caption);
        }
      }
    }
  }

  /** Translation keeps every code in its place: 251 rows with distinct two-letter codes. */
  lemma TranslatedCodes(t: string -> string)
    ensures |Translated(t)| == 251
    ensures DistinctCodes(Translated(t))
    ensures forall i :: 0 <= i < |Translated(t)| ==> Translated(t)[i].value == Table()[i].value && IsCode(Table()[i].value)
  {
    TableCodes();
    var r := Translated(t);
    forall i, j | 0 <= i < j < |r| ensures r[i].value != r[j].value {
      assert r[i].value == Table()[i].value && r[j].value == Table()[j].value;
    }
  }

  /** With distinct codes, no row occurs twice. */
  lemma {:induction false} DistinctCodesOccurOnce(s: seq<CountryOption>, x: CountryOption)
    requires DistinctCodes(s)
    ensures multiset(s)[x] <= 1
    decreases |s|
  {
    if s != [] {
      var last := |s| - 1;
      var init := s[..last];
      assert s == init + [s[last]];
      assert DistinctCodes(init) by {
        forall i, j | 0 <= i < j < |init| ensures init[i].value != init[j].value {
          assert init[i] == s[i] && init[j] == s[j];
        }
      }
      DistinctCodesOccurOnce(init, x);
      assert s[last] !in init by {
        forall i | 0 <= i < |init| ensures init[i] != s[last] {
          assert init[i] == s[i];
        }
      }
    }
  }

  /** A row found at two positions occurs at least twice. */
  lemma RepeatedRowCount(s: seq<CountryOption>, i: nat, j: nat)
    requires i < j < |s| && s[i] == s[j]
    ensures multiset(s)[s[i]] >= 2
  {
    assert s == s[..j] + s[j..];
    assert s[i] == s[..j][i];
    assert s[j] == s[j..][0];
    assert multiset(s) == multiset(s[..j]) + multiset(s[j..]);
  }

  /** Reordering rows cannot make two of their codes equal. */
  lemma PermutationKeepsDistinctCodes(s: seq<CountryOption>, r: seq<CountryOption>)
    requires multiset(s) == multiset(r) && DistinctCodes(r)
    ensures DistinctCodes(s)
  {
    forall i, j | 0 <= i < j < |s| ensures s[i].value != s[j].value {
      assert s[i] != s[j] by {
        if s[i] == s[j] {
          RepeatedRowCount(s, i, j);
          DistinctCodesOccurOnce(r, s[i]);
        }
      }
      assert s[i] in multiset(r) && s[j] in multiset(r);
      var p :| 0 <= p < |r| && r[p] == s[i];
      var q :| 0 <= q < |r| && r[q] == s[j];
      assert p != q;
    }
  }

  /**
   * Every catalog translatedOptions can return has the table's 251 rows with
   * pairwise distinct two-letter codes, whatever the translator.
   */
  lemma CatalogCodes(options: seq<CountryOption>, t: string -> string)
    requires IsCatalog(options, t)
    ensures |options| == 251
    ensures DistinctCodes(options)
    ensures forall i :: 0 <= i < |options| ==> IsCode(options[i].value)
  {
    TranslatedCodes(t);
    assert |options| == |multiset(options)| == |multiset(Translated(t))| == 251;
    PermutationKeepsDistinctCodes(options, Translated(t));
    forall i | 0 <= i < |options| ensures IsCode(options[i].value) {
      assert options[i] in multiset(Translated(t));
    }
  }

  /**
   * Each table row appears in the catalog exactly once, with its translated
   * label, and its position is the only one holding its code.
   */
  lemma CatalogHasRow(options: seq<CountryOption>, t: string -> string, k: nat)
    requires IsCatalog(options, t) && k < |Table()|
    ensures exists p :: 0 <= p < |options| && options[p] == CountryOption(Table()[k].value, t(Table()[k].caption))
    ensures forall p, q :: 0 <= p < |options| && 0 <= q < |options| && options[p].value == Table()[k].value && options[q].value == Table()[k].value ==> p == q
  {
    CatalogCodes(options, t);
    TranslatedCodes(t);
    assert Translated(t)[k] in multiset(options);
  }
}
