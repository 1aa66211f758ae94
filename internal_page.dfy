/** The pure parts of the admin page `src/app/internal/page.tsx`: the "last saved" text next
    to the save button and the status badge. Times are milliseconds since the epoch. */
module InternalPage {

  import opened Wrappers
  import opened Text

  const MINUTE_MS := 60000

  /** `formatLastSaved(date)` at time `now`; `None` is a null date. */
  function FormatLastSaved(saved: Option<int>, now: int): (text: string)
    ensures saved.None? ==> text == "Never saved"
    ensures saved.Some? && now - saved.value < MINUTE_MS ==> text == "Saved just now"
    ensures saved.Some? && MINUTE_MS <= now - saved.value < 2 * MINUTE_MS ==> text == "Saved 1 minute ago"
    ensures saved.Some? && now - saved.value >= 2 * MINUTE_MS ==>
      |text| > 18 && text[..6] == "Saved " && text[|text| - 12..] == " minutes ago" &&
      var n := DigitsValue(text[6..|text| - 12]);
      n >= 2 && n * MINUTE_MS <= now - saved.value < (n + 1) * MINUTE_MS
    ensures saved.Some? ==>
      forall n: nat :: n >= 2 && n * MINUTE_MS <= now - saved.value < (n + 1) * MINUTE_MS ==>
        text == "Saved " + Decimal(n) + " minutes ago"
  {
    if saved.None? then "Never saved"
    else
      var diff := now - saved.value;
      var minutes := diff / MINUTE_MS;
      if minutes < 1 then "Saved just now"
      else if minutes == 1 then "Saved 1 minute ago"
      else
        var digits := Decimal(minutes);
        var text := "Saved " + digits + " minutes ago";
        DecimalRoundTrip(minutes);
        assert text[6..|text| - 12] == digits;
        text
  }

  /** The badge text: `status.charAt(0).toUpperCase() + status.slice(1)`. */
  function Capitalize(status: string): (caption: string)
    ensures |caption| == |status|
    ensures status != [] ==> caption[0] == UpperChar(status[0]) && caption[1..] == status[1..]
  {
    if status == [] then [] else [UpperChar(status[0])] + status[1..]
  }

  /** Capitalizing twice is capitalizing once. */
  lemma {:induction false} CapitalizeIdempotent(status: string)
    ensures Capitalize(Capitalize(status)) == Capitalize(status)
  {
    if status != [] {
      var c := Capitalize(status);
      assert UpperChar(c[0]) == c[0];
      assert c[1..] == status[1..];
    }
  }

  datatype BadgeVariant = Default | Secondary | Destructive

  /** The badge's look: `default` for cleared, `secondary` for pending, `destructive` for
      anything else. */
  function StatusBadge(status: string): (v: BadgeVariant)
    ensures v == Default <==> status == "cleared"
    ensures v == Secondary <==> status == "pending"
    ensures v == Destructive <==> status != "cleared" && status != "pending"
  {
    if status == "cleared" then Default
    else if status == "pending" then Secondary
    else Destructive
  }
}
