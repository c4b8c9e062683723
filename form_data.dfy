/** The trip request the form collects and the plan service consumes. */
module FormData {
  /**
   * One trip request. `travelers` and `budget` hold what `parseInt` gave the
   * form; dates are the form's `YYYY-MM-DD` strings, kept opaque.
   */
  datatype TravelFormData = TravelFormData(
    destination: string,
    startDate: string,
    endDate: string,
    travelers: int,
    budget: int,
    interests: seq<string>,
    travelStyle: string)
}
