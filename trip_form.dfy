/**
 * The trip-creation form: the country search box with its dropdown of
 * matches, the travel-preference toggles, and the form state that the
 * event handlers of the dialog update.
 */
module TripForm {

  datatype Country = Country(code: string, name: string)

  // ---------------------------------------------------------------------
  // Lower-casing and substring search
  // ---------------------------------------------------------------------

  predicate IsUpper(c: char) { 'A' <= c <= 'Z' }

  /** `toLowerCase` on one character, over ASCII. */
  function LowerChar(c: char): (d: char)
    ensures !IsUpper(d)
    ensures IsUpper(c) ==> d as int == c as int + 32
    ensures !IsUpper(c) ==> d == c
  {
    if IsUpper(c) then (c as int + 32) as char else c
  }

  /** `toLowerCase` on a string, over ASCII. */
  function Lower(s: string): (r: string)
    ensures |r| == |s|
    ensures forall i :: 0 <= i < |s| ==> r[i] == LowerChar(s[i])
  {
    seq(|s|, i requires 0 <= i < |s| => LowerChar(s[i]))
  }

  /** `t` occurs in `s` at position `i`. */
  predicate OccursAt(s: string, t: string, i: int)
  {
    0 <= i <= |s| && t <= s[i..]
  }

  /** `String.prototype.includes`, searching from the left. */
  function Includes(s: string, t: string): bool
    decreases |s|
  {
    if t <= s then true
    else if |s| == 0 then false
    else Includes(s[1..], t)
  }

  /** An occurrence in the tail of `s` is an occurrence in `s` one position later. */
  lemma OccursShift(s: string, t: string, i: int)
    requires |s| > 0 && 0 <= i
    ensures OccursAt(s[1..], t, i) <==> OccursAt(s, t, i + 1)
  {
    if i <= |s| - 1 {
      assert s[1..][i..] == s[i + 1..];
    }
  }

  /** `includes` holds exactly when `t` occurs somewhere in `s`; so always for the empty `t`. */
  lemma {:induction false} IncludesIffOccurs(s: string, t: string)
    ensures Includes(s, t) <==> exists i :: OccursAt(s, t, i)
    decreases |s|
  {
    if t <= s {
      assert OccursAt(s, t, 0);
    } else if |s| == 0 {
      assert forall i :: !OccursAt(s, t, i);
    } else {
      IncludesIffOccurs(s[1..], t);
      if Includes(s, t) {
        var j :| OccursAt(s[1..], t, j);
        OccursShift(s, t, j);
      }
      if exists i :: OccursAt(s, t, i) {
        var i :| OccursAt(s, t, i);
        assert i != 0;
        OccursShift(s, t, i - 1);
      }
    }
  }

  // ---------------------------------------------------------------------
  // filteredCountries and the dropdown
  // ---------------------------------------------------------------------

  /** The filter predicate: the lower-cased name contains the lower-cased search text. */
  predicate Matches(c: Country, search: string)
  {
    Includes(Lower(c.name), Lower(search))
  }

  /** `filteredCountries`: the countries that match `search`, in list order. */
  function FilterCountries(countries: seq<Country>, search: string): (r: seq<Country>)
    ensures |r| <= |countries|
    ensures forall c :: c in r <==> c in countries && Matches(c, search)
  {
    if countries == [] then []
    else
      var rest := FilterCountries(countries[1..], search);
      assert forall c :: c in countries <==> c == countries[0] || c in countries[1..];
      if Matches(countries[0], search) then [countries[0]] + rest else rest
  }

  /** Filtering a concatenation filters each part and keeps them in order. */
  lemma {:induction false} FilterAppend(a: seq<Country>, b: seq<Country>, search: string)
    ensures FilterCountries(a + b, search) == FilterCountries(a, search) + FilterCountries(b, search)
  {
    if a == [] {
      assert a + b == b;
    } else {
      assert (a + b)[0] == a[0];
      assert (a + b)[1..] == a[1..] + b;
      FilterAppend(a[1..], b, search);
    }
  }

  /** A single country is kept exactly when it matches. */
  lemma FilterSingle(c: Country, search: string)
    ensures FilterCountries([c], search) == if Matches(c, search) then [c] else []
  {
    assert [c][1..] == [];
  }

  /** When every country matches, the filter keeps the whole list. */
  lemma {:induction false} FilterAllMatching(countries: seq<Country>, search: string)
    requires forall c :: c in countries ==> Matches(c, search)
    ensures FilterCountries(countries, search) == countries
  {
    if countries != [] {
      assert countries[0] in countries;
      assert forall c :: c in countries[1..] ==> c in countries;
      FilterAllMatching(countries[1..], search);
    }
  }

  /** An empty search keeps every country. */
  lemma EmptySearchKeepsAll(countries: seq<Country>)
    ensures FilterCountries(countries, "") == countries
  {
    forall c | c in countries ensures Matches(c, "") {
      assert Lower("") == "";
    }
    FilterAllMatching(countries, "");
  }

  /** The dropdown shows at most this many countries (`slice(0, 10)`). */
  const MaxShown: nat := 10

  /** The countries listed in the dropdown: the first `MaxShown` matches. */
  function DropdownCountries(countries: seq<Country>, search: string): (r: seq<Country>)
    ensures |r| <= MaxShown
    ensures |r| == |FilterCountries(countries, search)| || |r| == MaxShown
    ensures r <= FilterCountries(countries, search)
    ensures forall c :: c in r ==> c in countries && Matches(c, search)
  {
    var f := FilterCountries(countries, search);
    if |f| <= MaxShown then f else f[..MaxShown]
  }

  // ---------------------------------------------------------------------
  // Preference toggle
  // ---------------------------------------------------------------------

  /** `filter(p => p !== id)`: drops every occurrence of `id`, keeping the rest in order. */
  function RemoveAll(ps: seq<string>, id: string): (r: seq<string>)
    ensures id !in r
    ensures forall x :: x != id ==> multiset(r)[x] == multiset(ps)[x]
    ensures |r| == |ps| - multiset(ps)[id]
  {
    if ps == [] then []
    else
      assert ps == [ps[0]] + ps[1..];
      var rest := RemoveAll(ps[1..], id);
      if ps[0] == id then rest else [ps[0]] + rest
  }

  lemma {:induction false} RemoveAllAppend(a: seq<string>, b: seq<string>, id: string)
    ensures RemoveAll(a + b, id) == RemoveAll(a, id) + RemoveAll(b, id)
  {
    if a == [] {
      assert a + b == b;
    } else {
      assert (a + b)[0] == a[0];
      assert (a + b)[1..] == a[1..] + b;
      RemoveAllAppend(a[1..], b, id);
    }
  }

  lemma {:induction false} RemoveAllAbsent(ps: seq<string>, id: string)
    requires id !in ps
    ensures RemoveAll(ps, id) == ps
  {
    if ps != [] {
      assert ps[0] in ps;
      assert forall x :: x in ps[1..] ==> x in ps;
      RemoveAllAbsent(ps[1..], id);
    }
  }

  /** The preference list has no repeated id. */
  predicate NoDuplicates(ps: seq<string>)
  {
    forall i, j :: 0 <= i < j < |ps| ==> ps[i] != ps[j]
  }

  /** The updater of `handlePreferenceToggle`: remove the id if listed, append it otherwise. */
  function TogglePreference(ps: seq<string>, id: string): (r: seq<string>)
    ensures id in r <==> id !in ps
    ensures forall x :: x != id ==> multiset(r)[x] == multiset(ps)[x]
    ensures id !in ps ==> r == ps + [id]
  {
    if id in ps then RemoveAll(ps, id) else ps + [id]
  }

  /** A one-element list loses its element exactly when it is the removed id. */
  lemma RemoveAllSingle(x: string, id: string)
    ensures RemoveAll([x], id) == if x == id then [] else [x]
  {
    assert [x][1..] == [];
  }

  /**
   * Toggling a listed id drops it from every part of the list and keeps the
   * remaining ids in their order.
   */
  lemma ToggleListedKeepsOrder(a: seq<string>, b: seq<string>, id: string)
    requires id in a + b
    ensures TogglePreference(a + b, id) == RemoveAll(a, id) + RemoveAll(b, id)
  {
    RemoveAllAppend(a, b, id);
  }

  /** Toggling an absent id twice restores the original list. */
  lemma ToggleTwiceRestores(ps: seq<string>, id: string)
    requires id !in ps
    ensures TogglePreference(TogglePreference(ps, id), id) == ps
  {
    RemoveAllAppend(ps, [id], id);
    RemoveAllAbsent(ps, id);
    assert RemoveAll([id], id) == [];
  }

  lemma {:induction false} RemoveAllNoDuplicates(ps: seq<string>, id: string)
    requires NoDuplicates(ps)
    ensures NoDuplicates(RemoveAll(ps, id))
  {
    if ps != [] {
      assert NoDuplicates(ps[1..]);
      RemoveAllNoDuplicates(ps[1..], id);
      var rest := RemoveAll(ps[1..], id);
      if ps[0] != id {
        assert ps[0] !in ps[1..];
        assert multiset(ps[1..])[ps[0]] == 0;
        assert multiset(rest)[ps[0]] == 0;
        assert ps[0] !in rest;
        var r := [ps[0]] + rest;
        forall i, j | 0 <= i < j < |r| ensures r[i] != r[j] {
          if i == 0 { assert r[j] == rest[j - 1]; assert r[j] in rest; }
        }
      }
    }
  }

  /** A preference list without repeated ids keeps that shape after a toggle. */
  lemma ToggleKeepsNoDuplicates(ps: seq<string>, id: string)
    requires NoDuplicates(ps)
    ensures NoDuplicates(TogglePreference(ps, id))
  {
    if id in ps {
      RemoveAllNoDuplicates(ps, id);
    } else {
      var r := ps + [id];
      forall i, j | 0 <= i < j < |r| ensures r[i] != r[j] {
        if j == |ps| { assert r[i] == ps[i]; assert ps[i] in ps; }
      }
    }
  }

  // ---------------------------------------------------------------------
  // The dialog's state
  // ---------------------------------------------------------------------

  datatype TripFormData = TripFormData(
    title: string,
    destination: string,
    country: string,
    startDate: string,
    endDate: string,
    budget: string,
    description: string,
    preferences: seq<string>)

  const EmptyForm := TripFormData("", "", "", "", "", "", "", [])

  /** The state of the trip-creation dialog. */
  class CreateTripModal {
    /** The country list the search box filters. */
    const countries: seq<Country>
    var formData: TripFormData
    var countrySearch: string
    var showCountryDropdown: bool

    constructor (countries: seq<Country>)
      ensures this.countries == countries
      ensures formData == EmptyForm && countrySearch == "" && !showCountryDropdown
    {
      this.countries := countries;
      formData := EmptyForm;
      countrySearch := "";
      showCountryDropdown := false;
    }

    /** The countries listed under the search box: none while the dropdown is closed. */
    function VisibleCountries(): (r: seq<Country>)
      reads this
      ensures showCountryDropdown ==> r == DropdownCountries(countries, countrySearch)
      ensures !showCountryDropdown ==> r == []
    {
      if showCountryDropdown then DropdownCountries(countries, countrySearch) else []
    }

    /** `handleCountrySelect`: the chosen name goes into the form and the search box; the dropdown closes. */
    method HandleCountrySelect(c: Country)
      modifies this
      ensures formData == old(formData).(country := c.name)
      ensures countrySearch == c.name
      ensures !showCountryDropdown
      ensures VisibleCountries() == []
    {
      formData := formData.(country := c.name);
      countrySearch := c.name;
      showCountryDropdown := false;
    }

    /** The `onChange` of the country box: the typed text is both the search and the form's country. */
    method HandleCountryInput(value: string)
      modifies this
      ensures countrySearch == value
      ensures showCountryDropdown
      ensures formData == old(formData).(country := value)
      ensures VisibleCountries() == DropdownCountries(countries, value)
    {
      countrySearch := value;
      showCountryDropdown := true;
      formData := formData.(country := value);
    }

    /** The `onFocus` of the country box opens the dropdown. */
    method HandleCountryFocus()
      modifies this`showCountryDropdown
      ensures showCountryDropdown
      ensures VisibleCountries() == DropdownCountries(countries, countrySearch)
    {
      showCountryDropdown := true;
    }

    /** `handlePreferenceToggle`: only the preference list of the form changes. */
    method HandlePreferenceToggle(id: string)
      modifies this`formData
      ensures formData == old(formData).(preferences := TogglePreference(old(formData.preferences), id))
    {
      formData := formData.(preferences := TogglePreference(formData.preferences, id));
    }
  }
}
