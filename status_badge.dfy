/**
 * The status badge: the label and colour classes shown for a status value.
 */
module StatusBadge {
  import opened Types
  import opened Text

  /** A badge: its colour classes and its label text. */
  datatype BadgeConfig = BadgeConfig(color: string, text: string)

  const UNKNOWN: BadgeConfig := BadgeConfig("bg-gray-400 text-white", "Unknown")

  /** The badge of a status. The source's switch has one entry per status,
      each following one pattern: the colour class
      `bg-jobStatus-<status> text-white` and the capitalised status as label. */
  function Badge(s: JobStatus): BadgeConfig {
    BadgeConfig("bg-jobStatus-" + StatusName(s) + " text-white", Capitalize(StatusName(s)))
  }

  /** The configuration for a raw status value: a status's own badge, or the
      grey "Unknown" badge for anything else (only reachable from corrupt
      stored data). */
  function StatusConfig(value: string): (c: BadgeConfig)
    ensures forall s: JobStatus :: value == StatusName(s) ==> c == Badge(s)
    ensures (forall s: JobStatus :: value != StatusName(s)) ==> c == UNKNOWN
  {
    match ParseStatus(value)
    case Some(s) =>
      assert forall t: JobStatus :: value == StatusName(t) ==> t == s by {
        forall t: JobStatus ensures value == StatusName(t) ==> t == s { StatusNameInjective(s, t); }
      }
      Badge(s)
    case None => UNKNOWN
  }

  /** A status's badge is never the "Unknown" one, and lower-casing its
      label gives the status value back. */
  lemma BadgeOfStatus(s: JobStatus)
    ensures Badge(s) != UNKNOWN
    ensures Lower(Badge(s).text) == StatusName(s)
  {
    CapitalizedStatus(s);
  }

  /** The five labels as displayed. */
  lemma BadgeLabels()
    ensures Badge(Interested).text == "Interested" && Badge(Applied).text == "Applied"
    ensures Badge(Interview).text == "Interview" && Badge(Rejected).text == "Rejected"
    ensures Badge(Offer).text == "Offer"
  {
  }

  /** Different statuses get different labels and different colours. */
  lemma BadgeInjective(s: JobStatus, t: JobStatus)
    ensures Badge(s).text == Badge(t).text <==> s == t
    ensures Badge(s).color == Badge(t).color <==> s == t
  {
    if s != t {
      StatusNameInjective(s, t);
      CapitalizedStatus(s);
      CapitalizedStatus(t);
      DistinctCapitalized(StatusName(s), StatusName(t));
      DistinctInfix("bg-jobStatus-", StatusName(s), StatusName(t), " text-white");
    }
  }

  lemma DistinctCapitalized(a: string, b: string)
    requires a != b && Lower(Capitalize(a)) == a && Lower(Capitalize(b)) == b
    ensures Capitalize(a) != Capitalize(b)
  {
  }

  lemma DistinctInfix(prefix: string, a: string, b: string, suffix: string)
    requires a != b
    ensures prefix + a + suffix != prefix + b + suffix
  {
    var x, y := prefix + a + suffix, prefix + b + suffix;
    assert x[|prefix|..|x| - |suffix|] == a;
    assert y[|prefix|..|y| - |suffix|] == b;
  }
}
