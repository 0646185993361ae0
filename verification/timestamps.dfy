/** How the views turn a backend timestamp into something to display. The
    locale rendering itself (`toLocaleString`, `toLocaleTimeString`) is not
    modelled: a displayed time is represented by the ISO text handed to `Date`. */
module Timestamps {
  import opened Common

  /** JavaScript `s.endsWith('Z')`. */
  predicate EndsWithZ(s: string)
  {
    |s| > 0 && s[|s| - 1] == 'Z'
  }

  /** Marks a timestamp as UTC: appends 'Z' unless the text already ends in it. */
  function WithUtcSuffix(s: string): (r: string)
    ensures EndsWithZ(r)
    ensures |s| <= |r| <= |s| + 1 && r[..|s|] == s
    ensures r == s <==> EndsWithZ(s)
  {
    if EndsWithZ(s) then s else s + "Z"
  }

  /** Normalising twice is normalising once. */
  lemma UtcSuffixIdempotent(s: string)
    ensures WithUtcSuffix(WithUtcSuffix(s)) == WithUtcSuffix(s)
  {
  }

  /** The normalised text is the shortest extension of `s` that ends in 'Z'. */
  lemma UtcSuffixShortest(s: string, t: string)
    requires |s| <= |t| && t[..|s|] == s && EndsWithZ(t)
    ensures |WithUtcSuffix(s)| <= |t|
  {
  }

  /** What a view shows for a timestamp: a fixed placeholder, or the local
      rendering (date and time, or time of day only) of the given ISO text. */
  datatype Shown = Placeholder(text: string) | DateTime(iso: string) | TimeOfDay(iso: string)

  /** `formatTimeDisplay` of the close-shift view: "N/A" for a falsy time,
      otherwise the local date and time of the UTC-normalised text. */
  function FormatTimeDisplay(time: JsText): (r: Shown)
    ensures !Truthy(time) <==> r == Placeholder("N/A")
    ensures Truthy(time) ==> r.DateTime? && EndsWithZ(r.iso) && |time.text| <= |r.iso| && r.iso[..|time.text|] == time.text
    ensures Truthy(time) ==> |r.iso| <= |time.text| + 1 && (r.iso == time.text <==> EndsWithZ(time.text))
  {
    if !Truthy(time) then Placeholder("N/A") else DateTime(WithUtcSuffix(time.text))
  }

  /** `formatTime` of the end-of-day report: "?" for a falsy time, otherwise the
      local time of day of the UTC-normalised text. */
  function FormatClock(time: JsText): (r: Shown)
    ensures !Truthy(time) <==> r == Placeholder("?")
    ensures Truthy(time) ==> r.TimeOfDay? && EndsWithZ(r.iso) && |time.text| <= |r.iso| && r.iso[..|time.text|] == time.text
    ensures Truthy(time) ==> |r.iso| <= |time.text| + 1 && (r.iso == time.text <==> EndsWithZ(time.text))
  {
    if !Truthy(time) then Placeholder("?") else TimeOfDay(WithUtcSuffix(time.text))
  }

  /** The active-shift and shift-history views hand the text to `Date` as it is,
      without the UTC suffix, and show `placeholder` for a falsy time. */
  function FormatUnnormalised(time: JsText, placeholder: string): (r: Shown)
    ensures !Truthy(time) <==> r == Placeholder(placeholder)
    ensures Truthy(time) ==> r == DateTime(time.text)
  {
    if !Truthy(time) then Placeholder(placeholder) else DateTime(time.text)
  }

  /** The close-shift view and the active-shift view hand `Date` the same text
      for a present time exactly when that text already carries the UTC suffix;
      any other present time is read as UTC by one view and as local time by the
      other. Their locale options differ regardless, and are not modelled. */
  lemma ViewsAgreeIffSuffixed(time: JsText)
    requires Truthy(time)
    ensures FormatTimeDisplay(time) == FormatUnnormalised(time, "N/A") <==> EndsWithZ(time.text)
  {
  }
}
