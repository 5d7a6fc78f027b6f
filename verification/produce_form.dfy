/** The new-produce form: adding, removing and toggling quality indicators, and the
    payload `handleSubmit` hands to the create mutation. The indicator list starts as
    `[]` and every handler leaves a list, so it is a plain sequence here. */
module ProduceForm {
  import opened Wrappers

  predicate NoDuplicates(l: seq<string>) {
    forall i, j :: 0 <= i < j < |l| ==> l[i] != l[j]
  }

  /** `handleQualityIndicatorAdd` */
  function AddIndicator(l: seq<string>, indicator: string): (r: seq<string>)
    ensures indicator == "" || indicator in l ==> r == l
    ensures indicator != "" && indicator !in l ==> |r| == |l| + 1 && r[..|l|] == l && r[|l|] == indicator
  {
    if indicator != "" && indicator !in l then l + [indicator] else l
  }

  /** `handleQualityIndicatorRemove`: `filter(i => i !== indicator)` */
  function RemoveIndicator(l: seq<string>, indicator: string): (r: seq<string>)
    ensures indicator !in r
    ensures forall x :: x != indicator ==> (x in r <==> x in l)
    ensures |r| <= |l|
  {
    if l == [] then []
    else if l[0] == indicator then RemoveIndicator(l[1..], indicator)
    else [l[0]] + RemoveIndicator(l[1..], indicator)
  }

  /** Removing drops every occurrence and leaves the count of every other entry. */
  lemma {:induction false} RemoveIndicatorCounts(l: seq<string>, indicator: string)
    ensures multiset(RemoveIndicator(l, indicator)) == multiset(l)[indicator := 0]
  {
    if l != [] {
      assert l == [l[0]] + l[1..];
      RemoveIndicatorCounts(l[1..], indicator);
    }
  }

  /** Removing works piece by piece, so the kept entries stay in their order. */
  lemma {:induction false} RemoveIndicatorAppend(a: seq<string>, b: seq<string>, indicator: string)
    ensures RemoveIndicator(a + b, indicator) == RemoveIndicator(a, indicator) + RemoveIndicator(b, indicator)
  {
    if a == [] {
      assert a + b == b;
    } else {
      assert (a + b)[0] == a[0] && (a + b)[1..] == a[1..] + b;
      RemoveIndicatorAppend(a[1..], b, indicator);
    }
  }

  /** Removing an indicator the list does not hold changes nothing. */
  lemma {:induction false} RemoveAbsent(l: seq<string>, indicator: string)
    requires indicator !in l
    ensures RemoveIndicator(l, indicator) == l
  {
    if l != [] {
      assert l[0] != indicator;
      RemoveAbsent(l[1..], indicator);
      assert l == [l[0]] + l[1..];
    }
  }

  /** Adding keeps the list free of duplicates, and adding a new indicator then
      removing it gives back the original list. */
  lemma AddThenRemove(l: seq<string>, indicator: string)
    ensures NoDuplicates(l) ==> NoDuplicates(AddIndicator(l, indicator))
    ensures indicator != "" && indicator !in l ==> RemoveIndicator(AddIndicator(l, indicator), indicator) == l
  {
    if indicator != "" && indicator !in l {
      RemoveIndicatorAppend(l, [indicator], indicator);
      RemoveAbsent(l, indicator);
      assert RemoveIndicator([indicator], indicator) == [];
    }
  }

  /** The indicator buttons' `onClick`: remove when present, add otherwise. */
  function ToggleIndicator(l: seq<string>, indicator: string): (r: seq<string>)
    ensures indicator in l ==> r == RemoveIndicator(l, indicator)
    ensures indicator !in l ==> r == AddIndicator(l, indicator)
  {
    if indicator in l then RemoveIndicator(l, indicator) else AddIndicator(l, indicator)
  }

  /** A toggle flips the indicator's membership, touches no other indicator, keeps the
      list free of duplicates, and toggling an absent indicator twice undoes it. */
  lemma ToggleFlips(l: seq<string>, indicator: string)
    requires indicator != "" && NoDuplicates(l)
    ensures indicator in ToggleIndicator(l, indicator) <==> indicator !in l
    ensures forall x :: x != indicator ==> (x in ToggleIndicator(l, indicator) <==> x in l)
    ensures NoDuplicates(ToggleIndicator(l, indicator))
    ensures indicator !in l ==> ToggleIndicator(ToggleIndicator(l, indicator), indicator) == l
  {
    AddThenRemove(l, indicator);
    if indicator in l {
      RemoveKeepsNoDuplicates(l, indicator);
    }
  }

  lemma {:induction false} RemoveKeepsNoDuplicates(l: seq<string>, indicator: string)
    requires NoDuplicates(l)
    ensures NoDuplicates(RemoveIndicator(l, indicator))
  {
    if l != [] {
      RemoveKeepsNoDuplicates(l[1..], indicator);
      if l[0] != indicator {
        assert l[0] !in l[1..];
        assert l[0] !in RemoveIndicator(l[1..], indicator);
      }
    }
  }

  /** The form's fields (`CreateProduceRequest`); dates are text, and the form itself
      never sets `expires_at`. */
  datatype ProduceFields = ProduceFields(
    cropType: string,
    quantityKg: real,
    harvestDate: string,
    expectedPricePerKg: real,
    location: string,
    expiresAt: Option<string>,
    qualityIndicators: seq<string>)

  /** `{...formData, harvest_date, expires_at}`: the two computed dates (ISO text)
      replace the form's and every other field goes as typed. */
  function SubmitPayload(form: ProduceFields, harvestIso: string, expiresIso: string): (p: ProduceFields)
    ensures p.harvestDate == harvestIso && p.expiresAt == Some(expiresIso)
    ensures p.(harvestDate := form.harvestDate, expiresAt := form.expiresAt) == form
  {
    form.(harvestDate := harvestIso, expiresAt := Some(expiresIso))
  }
}
