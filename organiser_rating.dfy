/** The organiser rating: the route that reads the registry's ratings tuple
    and the badge that shows it. JavaScript's Number division is exact
    `real` division here. */
module OrganiserRatingRoute {
  import opened Common

  /** ratings(organiser): (active, totalRate, numberOfTimesRated). */
  datatype Rating = Rating(active: bool, totalRate: nat, numberOfTimesRated: nat)

  datatype Response =
    | Ok(organiser: string, active: bool, totalRate: nat, numberOfTimesRated: nat, average: real)
    | BadRequest   // 400 'Missing organiser address'
    | ServerError  // 500 'Failed to read organiser rating'

  /** totalRate / numberOfTimesRated, or 0 when nobody has rated yet. */
  function Average(totalRate: nat, count: nat): (avg: real)
    ensures count > 0 ==> avg * count as real == totalRate as real
    ensures count == 0 ==> avg == 0.0
    ensures avg >= 0.0
  {
    if count > 0 then totalRate as real / count as real else 0.0
  }

  /** With every vote between 0 and 5 the total is at most five per vote,
      and the average then lies between 0 and 5. */
  lemma AverageInRange(totalRate: nat, count: nat)
    requires totalRate <= 5 * count
    ensures 0.0 <= Average(totalRate, count) <= 5.0
  {
  }

  /** GET ?organiser=a. `read` is the ratings tuple, or None when the read threw. */
  function Get(organiser: Option<string>, read: Option<Rating>): (r: Response)
    ensures r == BadRequest <==> organiser.None? || organiser.value == ""
    ensures r == ServerError <==> organiser.Some? && organiser.value != "" && read.None?
    ensures r.Ok? ==>
              r.organiser == organiser.value
              && r.active == read.value.active
              && r.totalRate == read.value.totalRate
              && r.numberOfTimesRated == read.value.numberOfTimesRated
              && (r.numberOfTimesRated > 0 ==> r.average * r.numberOfTimesRated as real == r.totalRate as real)
              && (r.numberOfTimesRated == 0 ==> r.average == 0.0)
  {
    if organiser.None? || organiser.value == "" then BadRequest
    else if read.None? then ServerError
    else
      var rating := read.value;
      Ok(organiser.value, rating.active, rating.totalRate, rating.numberOfTimesRated,
         Average(rating.totalRate, rating.numberOfTimesRated))
  }
}

module OrganiserRatingView {
  import opened Common
  import opened OrganiserRatingRoute

  /** The useMemo result: average, number of votes and the active flag. */
  datatype Summary = Summary(avg: real, count: nat, active: bool)

  function Summarise(data: Option<Rating>): (s: Summary)
    ensures data.None? ==> s == Summary(0.0, 0, false)
    ensures data.Some? ==> s.count == data.value.numberOfTimesRated && s.active == data.value.active
  {
    if data.None? then Summary(0.0, 0, false)
    else
      var c := data.value.numberOfTimesRated;
      Summary(if c > 0 then data.value.totalRate as real / c as real else 0.0, c, data.value.active)
  }

  /** What the badge shows: a placeholder while loading, else the average,
      the count with its label and, for an inactive organiser, the
      "new organiser" mark. */
  datatype View =
    | Placeholder
    | Badge(avg: real, count: nat, noun: string, newOrganiser: bool)

  function Render(isLoading: bool, data: Option<Rating>): (v: View)
    ensures v.Placeholder? <==> isLoading
  {
    if isLoading then Placeholder
    else
      var s := Summarise(data);
      Badge(s.avg, s.count, if s.count == 1 then "vote" else "votes", !s.active)
  }

  /** The label is singular for exactly one vote, and the new-organiser mark
      shows exactly when the organiser is not active. */
  lemma BadgeLabels(data: Option<Rating>)
    ensures var v := Render(false, data);
      (v.noun == "vote" <==> v.count == 1)
      && (v.newOrganiser <==> !Summarise(data).active)
      && (data.None? ==> v.newOrganiser && v.count == 0)
  {
  }

  /** The badge's average is the route's average for the same tuple. */
  lemma BadgeAgreesWithRoute(organiser: string, rating: Rating)
    requires organiser != ""
    ensures Summarise(Some(rating)).avg == Get(Some(organiser), Some(rating)).average
  {
  }
}
