/**
 * The trip form's state: the initial request, the interest toggle, the
 * travel-style choice and the other field setters, and the submit guard.
 */
module TravelForm {
  import opened Wrappers
  import opened FormData

  /** The ids of the interest buttons the form offers. */
  const InterestIds: seq<string> := ["culture", "nature", "food", "shopping", "nightlife", "relaxation"]

  /** The ids of the travel-style buttons the form offers. */
  const TravelStyleIds: seq<string> := ["budget", "balanced", "luxury"]

  /** The request the form starts from. */
  function InitialFormData(): TravelFormData {
    TravelFormData("", "", "", 1, 1000, [], "balanced")
  }

  /** `s.filter(i => i !== x)`: every occurrence of `x` dropped, everything else kept. */
  function RemoveAll(s: seq<string>, x: string): (r: seq<string>)
    ensures x !in r
    ensures forall y :: y != x ==> multiset(r)[y] == multiset(s)[y]
  {
    if s == [] then []
    else
      var init, last := s[..|s| - 1], s[|s| - 1];
      assert s == init + [last];
      if last == x then RemoveAll(init, x) else RemoveAll(init, x) + [last]
  }

  /** Filtering distributes over concatenation, so the survivors keep their order. */
  lemma {:induction false} RemoveAllConcat(a: seq<string>, b: seq<string>, x: string)
    ensures RemoveAll(a + b, x) == RemoveAll(a, x) + RemoveAll(b, x)
    decreases |b|
  {
    if b == [] {
      assert a + b == a;
    } else {
      var b', last := b[..|b| - 1], b[|b| - 1];
      assert (a + b)[..|a + b| - 1] == a + b';
      assert (a + b)[|a + b| - 1] == last;
      RemoveAllConcat(a, b', x);
    }
  }

  /** Filtering out a value that is not there changes nothing. */
  lemma {:induction false} RemoveAllAbsent(s: seq<string>, x: string)
    requires x !in s
    ensures RemoveAll(s, x) == s
  {
    if s != [] {
      RemoveAllAbsent(s[..|s| - 1], x);
      assert s == s[..|s| - 1] + [s[|s| - 1]];
    }
  }

  /** `handleInterestToggle`'s updater: drop the interest if present, else append it. */
  function ToggleInterest(interests: seq<string>, interest: string): (r: seq<string>)
    ensures interest in r <==> interest !in interests
    ensures interest !in interests ==> r == interests + [interest]
    ensures forall y :: y != interest ==> multiset(r)[y] == multiset(interests)[y]
  {
    if interest in interests then RemoveAll(interests, interest) else interests + [interest]
  }

  /** Toggling an absent interest twice restores the list. */
  lemma ToggleTwiceRestores(interests: seq<string>, interest: string)
    requires interest !in interests
    ensures ToggleInterest(ToggleInterest(interests, interest), interest) == interests
  {
    RemoveAllConcat(interests, [interest], interest);
    assert RemoveAll([interest], interest) == [];
    RemoveAllAbsent(interests, interest);
  }

  /** Toggling a present interest twice moves it to the end, after the others in their order. */
  lemma ToggleTwiceMovesToEnd(interests: seq<string>, interest: string)
    requires interest in interests
    ensures ToggleInterest(ToggleInterest(interests, interest), interest) == RemoveAll(interests, interest) + [interest]
  {
  }

  /** No interest occurs twice. */
  ghost predicate NoDuplicates(s: seq<string>) {
    forall y :: multiset(s)[y] <= 1
  }

  /** Toggling keeps the list free of duplicates and within the offered ids. */
  lemma ToggleKeepsInterestsValid(interests: seq<string>, interest: string)
    requires NoDuplicates(interests) && forall y :: y in interests ==> y in InterestIds
    requires interest in InterestIds
    ensures var r := ToggleInterest(interests, interest);
      NoDuplicates(r) && forall y :: y in r ==> y in InterestIds
  {
    var r := ToggleInterest(interests, interest);
    forall y
      ensures multiset(r)[y] <= 1 && (y in r ==> y in InterestIds)
    {
      if y != interest {
        assert multiset(r)[y] == multiset(interests)[y];
        assert y in r <==> y in interests;
      }
    }
  }

  /** `handleSubmit`'s guard: destination, start date and end date are all filled in. */
  predicate CanSubmit(data: TravelFormData) {
    data.destination != "" && data.startDate != "" && data.endDate != ""
  }

  /** The form component's `formData` state cell. */
  class TravelFormState {
    var formData: TravelFormData

    /** Only offered styles and interests, each interest at most once. */
    ghost predicate Valid()
      reads this
    {
      && formData.travelStyle in TravelStyleIds
      && NoDuplicates(formData.interests)
      && forall y :: y in formData.interests ==> y in InterestIds
    }

    constructor ()
      ensures Valid()
      ensures formData.destination == "" && formData.startDate == "" && formData.endDate == ""
      ensures formData.travelers == 1 && formData.budget == 1000
      ensures formData.interests == [] && formData.travelStyle == "balanced"
    {
      formData := InitialFormData();
    }

    method SetDestination(value: string)
      requires Valid()
      modifies this
      ensures Valid() && formData == old(formData).(destination := value)
    {
      formData := formData.(destination := value);
    }

    method SetStartDate(value: string)
      requires Valid()
      modifies this
      ensures Valid() && formData == old(formData).(startDate := value)
    {
      formData := formData.(startDate := value);
    }

    method SetEndDate(value: string)
      requires Valid()
      modifies this
      ensures Valid() && formData == old(formData).(endDate := value)
    {
      formData := formData.(endDate := value);
    }

    /** `value` is what `parseInt` made of the input. */
    method SetTravelers(value: int)
      requires Valid()
      modifies this
      ensures Valid() && formData == old(formData).(travelers := value)
    {
      formData := formData.(travelers := value);
    }

    /** `value` is what `parseInt` made of the input. */
    method SetBudget(value: int)
      requires Valid()
      modifies this
      ensures Valid() && formData == old(formData).(budget := value)
    {
      formData := formData.(budget := value);
    }

    /** A click on an interest button flips that interest and touches nothing else. */
    method HandleInterestToggle(interest: string)
      requires Valid() && interest in InterestIds
      modifies this
      ensures Valid()
      ensures formData == old(formData).(interests := ToggleInterest(old(formData.interests), interest))
      ensures interest in formData.interests <==> interest !in old(formData.interests)
    {
      ToggleKeepsInterestsValid(formData.interests, interest);
      formData := formData.(interests := ToggleInterest(formData.interests, interest));
    }

    /** A click on a travel-style button. */
    method SelectTravelStyle(style: string)
      requires Valid() && style in TravelStyleIds
      modifies this
      ensures Valid() && formData == old(formData).(travelStyle := style)
    {
      formData := formData.(travelStyle := style);
    }

    /** `handleSubmit`: the request to hand on, or None when a required field is empty. */
    method HandleSubmit() returns (submitted: Option<TravelFormData>)
      ensures submitted.Some? <==> formData.destination != "" && formData.startDate != "" && formData.endDate != ""
      ensures submitted.Some? ==> submitted.value == formData
    {
      if CanSubmit(formData) {
        submitted := Some(formData);
      } else {
        submitted := None;
      }
    }
  }
}
