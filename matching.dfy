/**
 * The records exchanged between the upload flow, the run controller and the cards
 * (`src/types/matching.ts`). Budgets are whole rupees, modelled as `int`.
 */
module Matching {

  /** The profile the parser extracts from an uploaded template. */
  datatype ParsedProfile = ParsedProfile(
    id: string,
    city: string,
    area: string,
    budgetPkr: int,
    sleepSchedule: string,
    cleanliness: string,
    noiseTolerance: string,
    studyHabits: string,
    foodPref: string,
    notes: string)

  /** The summary of a candidate shown on a match card. */
  datatype MatchShort = MatchShort(
    city: string,
    area: string,
    budgetPkr: int,
    cleanliness: string,
    sleepSchedule: string)

  /** One candidate roommate and how well they match. */
  datatype MatchResultItem = MatchResultItem(
    roommateId: string,
    score: int,
    short: MatchShort,
    redFlags: seq<string>)

  /** What one run of the matching flow produces. */
  datatype MatchingResults = MatchingResults(
    matches: seq<MatchResultItem>,
    candidateCount: int,
    usedFallback: bool,
    wingman: map<string, string>)
}
