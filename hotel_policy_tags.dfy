/** The policy tags of the hotel list UI
    (`src/agent-uis/hotels/hotels-list/components/HotelPolicyTags.tsx`): two
    case-insensitive phrase tests on the policy text and the tags they
    switch on. Rendering is left out; a tag stands for its translation key. */
module HotelPolicyTags {
  import opened Strings

  /** `hasFreeCancellation`. */
  predicate HasFreeCancellation(policy: string)
  {
    Contains(Lower(policy), "cancelamento gratuito") || Contains(Lower(policy), "free cancellation")
  }

  /** `hasBreakfast`. */
  predicate HasBreakfast(policy: string)
  {
    Contains(Lower(policy), "café da manhã") || Contains(Lower(policy), "breakfast")
  }

  datatype Tag = BreakfastTag | FreeCancellationTag

  /** The translation key a tag shows. */
  function TagKey(t: Tag): string
  {
    match t
    case BreakfastTag => "hotels.list.breakfast"
    case FreeCancellationTag => "hotels.list.freeCancellation"
  }

  /** The tags shown for a policy, in display order. */
  function Tags(policy: string): (ts: seq<Tag>)
    ensures BreakfastTag in ts <==> HasBreakfast(policy)
    ensures FreeCancellationTag in ts <==> HasFreeCancellation(policy)
    ensures |ts| <= 2 && (|ts| == 2 ==> ts == [BreakfastTag, FreeCancellationTag])
  {
    (if HasBreakfast(policy) then [BreakfastTag] else []) +
    (if HasFreeCancellation(policy) then [FreeCancellationTag] else [])
  }

  /** Case does not matter: a policy and its lowercase form get the same
      tags. */
  lemma TagsIgnoreCase(policy: string)
    ensures Tags(Lower(policy)) == Tags(policy)
  {
    LowerIdempotent(policy);
  }
}
