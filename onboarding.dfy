/** The onboarding page: choosing a country, then toggling favourite genres, each
    step saved to the user's profile. */
module Onboarding {
  import opened Js
  import Auth

  /** The list without any occurrence of `g`, the others kept in order. */
  function Filter(list: seq<string>, g: string): (r: seq<string>)
    ensures |r| <= |list|
    ensures forall i :: 0 <= i < |r| ==> r[i] != g
  {
    if list == [] then []
    else if list[0] == g then Filter(list[1..], g)
    else [list[0]] + Filter(list[1..], g)
  }

  /** `includes(genre) ? filter(g => g !== genre) : [...genres, genre]`. */
  function Toggle(list: seq<string>, g: string): (r: seq<string>)
    ensures g in r <==> g !in list
  {
    if g in list then Filter(list, g) else list + [g]
  }

  predicate NoDup(list: seq<string>) {
    forall i, j :: 0 <= i < j < |list| ==> list[i] != list[j]
  }

  /** Filtering keeps exactly the other values. */
  lemma {:induction false} FilterMembers(list: seq<string>, g: string, x: string)
    ensures x in Filter(list, g) <==> x in list && x != g
  {
    if list != [] {
      FilterMembers(list[1..], g, x);
      assert list == [list[0]] + list[1..];
    }
  }

  /** Filtering distributes over concatenation, so the order of the others is kept. */
  lemma {:induction false} FilterAppend(a: seq<string>, b: seq<string>, g: string)
    ensures Filter(a + b, g) == Filter(a, g) + Filter(b, g)
  {
    if a == [] {
      assert a + b == b;
    } else {
      assert (a + b)[1..] == a[1..] + b;
      FilterAppend(a[1..], b, g);
    }
  }

  /** A list without `g` is its own filter. */
  lemma {:induction false} FilterAbsent(list: seq<string>, g: string)
    requires g !in list
    ensures Filter(list, g) == list
  {
    if list != [] {
      assert list[1..] == list[1..] && g !in list[1..];
      FilterAbsent(list[1..], g);
    }
  }

  /** Filtering a list without duplicates leaves one without duplicates. */
  lemma {:induction false} FilterNoDup(list: seq<string>, g: string)
    requires NoDup(list)
    ensures NoDup(Filter(list, g))
  {
    if list != [] {
      var t := list[1..];
      assert NoDup(t) by {
        forall i, j | 0 <= i < j < |t| ensures t[i] != t[j] {
          assert t[i] == list[i + 1] && t[j] == list[j + 1];
        }
      }
      FilterNoDup(t, g);
      if list[0] != g {
        assert list[0] !in t by {
          forall k | 0 <= k < |t| ensures t[k] != list[0] {
            assert t[k] == list[k + 1];
          }
        }
        FilterMembers(t, g, list[0]);
        ConsNoDup(list[0], Filter(t, g));
      }
    }
  }

  lemma ConsNoDup(h: string, t: seq<string>)
    requires NoDup(t) && h !in t
    ensures NoDup([h] + t)
  {
    var l := [h] + t;
    forall i, j | 0 <= i < j < |l| ensures l[i] != l[j] {
      if i == 0 {
        assert l[j] == t[j - 1];
      } else {
        assert l[i] == t[i - 1] && l[j] == t[j - 1];
      }
    }
  }

  /** A genre that is not selected is added at the end. */
  lemma ToggleAbsent(list: seq<string>, g: string)
    requires g !in list
    ensures Toggle(list, g) == list + [g]
  {
  }

  /** A selected genre is removed, every occurrence of it, and the others keep their order. */
  lemma TogglePresent(list: seq<string>, g: string, a: seq<string>, b: seq<string>)
    requires list == a + [g] + b
    ensures Toggle(list, g) == Filter(a, g) + Filter(b, g)
    ensures g !in Toggle(list, g)
    ensures forall x :: x != g ==> (x in Toggle(list, g) <==> x in list)
  {
    assert g in list by { assert list[|a|] == g; }
    var t := Toggle(list, g);
    assert t == Filter(list, g);
    FilterAround(a, g, b);
    forall x | x != g ensures x in t <==> x in list {
      FilterMembers(list, g, x);
    }
  }

  /** Filtering out `g` around one occurrence of it filters the two sides. */
  lemma FilterAround(a: seq<string>, g: string, b: seq<string>)
    ensures Filter(a + [g] + b, g) == Filter(a, g) + Filter(b, g)
  {
    FilterAppend(a + [g], b, g);
    FilterAppend(a, [g], g);
    assert Filter([g], g) == [];
    assert Filter(a, g) + [] == Filter(a, g);
  }

  /** Toggling a genre that is not selected twice gives back the list. */
  lemma ToggleTwice(list: seq<string>, g: string)
    requires g !in list
    ensures Toggle(Toggle(list, g), g) == list
  {
    var added := list + [g];
    assert added[|list|] == g;
    FilterAppend(list, [g], g);
    FilterAbsent(list, g);
    assert Filter([g], g) == [];
    assert list + [] == list;
  }

  /** Toggling keeps the list free of duplicates. */
  lemma ToggleKeepsNoDup(list: seq<string>, g: string)
    requires NoDup(list)
    ensures NoDup(Toggle(list, g))
  {
    if g in list {
      FilterNoDup(list, g);
    } else {
      var r := list + [g];
      forall i, j | 0 <= i < j < |r| ensures r[i] != r[j] {
        if j == |list| {
          assert r[i] == list[i];
        } else {
          assert r[i] == list[i] && r[j] == list[j];
        }
      }
    }
  }

  const FirstStep := 1
  const SecondStep := 2

  /** The update `handleNextStep` saves: the country alone. */
  function CountryUpdate(country: string): Auth.Profile {
    Auth.EmptyProfile.(country := Some(country))
  }

  /** The update `handleFinishOnboarding` saves: the genres alone. */
  function GenresUpdate(genres: seq<string>): Auth.Profile {
    Auth.EmptyProfile.(genres := Some(genres))
  }

  class OnboardingPage {
    var selectedCountry: string
    var selectedGenres: seq<string>
    var step: int
    var loading: bool

    /** The choices start from the profile: its country or "", its genres or none. */
    constructor (user: Option<Auth.Profile>)
      ensures selectedCountry == OrElse(if user.Some? then user.value.country else None, "")
      ensures selectedGenres == (if user.Some? && user.value.genres.Some? then user.value.genres.value else [])
      ensures step == FirstStep && !loading
    {
      selectedCountry := OrElse(if user.Some? then user.value.country else None, "");
      selectedGenres := if user.Some? && user.value.genres.Some? then user.value.genres.value else [];
      step := FirstStep;
      loading := false;
    }

    method HandleCountryChange(value: string)
      modifies this
      ensures selectedCountry == value
      ensures selectedGenres == old(selectedGenres) && step == old(step) && loading == old(loading)
    {
      selectedCountry := value;
    }

    method HandleGenreToggle(genre: string)
      modifies this
      ensures selectedGenres == Toggle(old(selectedGenres), genre)
      ensures NoDup(old(selectedGenres)) ==> NoDup(selectedGenres)
      ensures selectedCountry == old(selectedCountry) && step == old(step) && loading == old(loading)
    {
      if NoDup(selectedGenres) {
        ToggleKeepsNoDup(selectedGenres, genre);
      }
      selectedGenres := Toggle(selectedGenres, genre);
    }

    /** `handleNextStep`: on the first step with a country chosen, saves the country and
        moves to the second step only if the save succeeds. */
    method HandleNextStep(auth: Auth.AuthProvider, write: Auth.Write, table: Auth.CurrencyTable)
      modifies this, auth
      ensures selectedCountry == old(selectedCountry) && selectedGenres == old(selectedGenres)
      ensures !(old(step) == FirstStep && selectedCountry != "") ==> step == old(step) && loading == old(loading) && unchanged(auth)
      ensures old(step) == FirstStep && selectedCountry != "" ==> !loading
      ensures step == (if old(step) == FirstStep && selectedCountry != "" && old(auth.ProfileStoreReady()) && write == Auth.WriteOk
                       then SecondStep else old(step))
      ensures step == SecondStep && old(step) == FirstStep ==> auth.user.Some? && auth.user.value.country == Some(selectedCountry)
    {
      if step == FirstStep && selectedCountry != "" {
        loading := true;
        var result := auth.UpdateUserProfile(CountryUpdate(selectedCountry), write, table);
        if result.Success? {
          step := SecondStep;
        }
        loading := false;
      }
    }

    /** `handleFinishOnboarding`: with at least one genre, saves the genres and goes home
        only if the save succeeds; with none it does nothing. */
    method HandleFinish(auth: Auth.AuthProvider, write: Auth.Write, table: Auth.CurrencyTable) returns (goHome: bool)
      modifies this, auth
      ensures selectedCountry == old(selectedCountry) && selectedGenres == old(selectedGenres) && step == old(step)
      ensures |selectedGenres| == 0 ==> !goHome && loading == old(loading) && unchanged(auth)
      ensures |selectedGenres| > 0 ==> !loading
      ensures goHome <==> |selectedGenres| > 0 && old(auth.ProfileStoreReady()) && write == Auth.WriteOk
      ensures goHome ==> auth.user.Some? && auth.user.value.genres == Some(selectedGenres)
    {
      goHome := false;
      if |selectedGenres| > 0 {
        loading := true;
        var result := auth.UpdateUserProfile(GenresUpdate(selectedGenres), write, table);
        goHome := result.Success?;
        loading := false;
      }
    }
  }
}
