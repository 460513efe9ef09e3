/** Measurement systems and their printable labels (src/units.rs). */
module Units {
  import opened Wrappers

  datatype Units = Imperial | Metric

  /** `Units::default()`: the `#[default]` variant. */
  function Default(): (u: Units)
    ensures u == Metric && Name(u) == "metric"
  {
    Metric
  }

  /** `Units::to_string`: the query-parameter value sent to the weather service. */
  function Name(u: Units): (s: string)
    ensures |s| > 0
  {
    match u
    case Imperial => "imperial"
    case Metric => "metric"
  }

  /** The serde names of the variants (`#[serde(rename = ...)]`): the inverse of `Name`. */
  function FromName(s: string): (u: Option<Units>)
  {
    if s == "imperial" then Some(Imperial)
    else if s == "metric" then Some(Metric)
    else None
  }

  /** `to_string` agrees with the serde names, so it is injective. */
  lemma NameRoundTrip(u: Units)
    ensures FromName(Name(u)) == Some(u)
  {
  }

  lemma NameInjective(u: Units, v: Units)
    ensures Name(u) == Name(v) <==> u == v
  {
    NameRoundTrip(u);
    NameRoundTrip(v);
  }

  /** The quantity a unit label is for. */
  datatype Variant = Degrees | Speed

  /** `Variant::to_str`. */
  function Label(v: Variant, u: Units): (s: string)
    ensures v == Degrees ==> s == (if u == Imperial then "°F" else "°C")
    ensures v == Speed ==> s == (if u == Imperial then "km/h" else "m/s")
  {
    match v
    case Degrees => (match u case Imperial => "°F" case Metric => "°C")
    case Speed => (match u case Imperial => "km/h" case Metric => "m/s")
  }

  /** The four labels are pairwise distinct: a label names its quantity and its system. */
  lemma LabelInjective(v: Variant, u: Units, v': Variant, u': Units)
    ensures Label(v, u) == Label(v', u') <==> v == v' && u == u'
  {
  }
}
