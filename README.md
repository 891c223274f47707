# Feedback component model

A Dafny model of the `Feedback` React component (`src/components/feed.jsx`): a feedback form
whose submissions are kept in an ordered list, mirrored to the browser storage key
`"feedback"`, and summarised per category (running total of the ratings and a count).

The model has five modules:

- `Wrappers` (wrappers.dfy): the `Option` type.
- `Records` (records.dfy): the five-field form record, the enumerated field identifier that
  replaces the event's `name` string, and the merge `{ ...formData, [name]: value }`.
- `Ratings` (ratings.dfy): `parseInt` on rating strings, as the value of the leading run of
  decimal digits or not-a-number (`None`); and the running total `Total = Num(int) | NaN`,
  in which NaN absorbs every later addition.
- `Aggregate` (grouping.dfy): `groupFeedbackByType` as an imperative loop over the list that
  builds an insertion-ordered association list of buckets, proved equal to a declarative
  grouping. Lemmas give the properties of that grouping: keys, key order, counts, totals and
  NaN poisoning.
- `FeedbackComponent` (feedback.dfy): the component as a class with `form`, `all` (the
  `allFeedback` list) and `stored` (an abstract stand-in for the storage key), its two
  handlers, and the statistics panel that is drawn on every render.

Three details of the code the model keeps:

- On submission the code appends the form to the in-memory list (line 29) and overwrites
  storage with the result. It does not re-read storage first, so `HandleSubmit` never reads
  `stored`.
- Ratings are parsed by `parseInt` with no radix (line 53). On the decimal strings modelled
  here that reads base 10; a `0x` prefix would switch it to hexadecimal.
- A malformed stored value makes `JSON.parse` throw at mount (line 16). It does not fall
  back to an empty list. The mount load is not part of this model.

## Model

| member | source | states |
|---|---|---|
| `Records.With` | src/components/feed.jsx:20-23 | the changed record holds the new value in the named field and every other field keeps its old value |
| `Records.FieldNamed` | src/components/feed.jsx:74-140 | maps a control's `name` attribute back to its field; it finds a field exactly when the name is one of the five names, and it inverts `FieldName` |
| `Records.FillingEveryFieldGivesRecord` | src/components/feed.jsx:20-23 | one change event per control, starting from the blank form, produces exactly the record typed in |
| `Ratings.DigitRunLength` | src/components/feed.jsx:53 | the length of the digit prefix that `parseInt` reads: every character before it is a digit, and the character at it (if any) is not |
| `Ratings.DigitRunLengthAt` | src/components/feed.jsx:53 | the digit prefix ends exactly at the first non-digit |
| `Ratings.ParseRating` | src/components/feed.jsx:53 | the rating is not-a-number exactly when the string is empty or does not start with a digit; otherwise it is a non-negative integer |
| `Ratings.ParseStopsAtNonDigit` | src/components/feed.jsx:53 | parsing reads the digit run and ignores the rest ("12abc" reads as 12) |
| `Ratings.DecimalValueOfDecimal` | src/components/feed.jsx:53 | the decimal spelling of n denotes n |
| `Ratings.ParseDecimal` | src/components/feed.jsx:53 | round trip: the decimal spelling of any natural number parses back to that number |
| `Ratings.Plus` | src/components/feed.jsx:53 | `totalRating += parseInt(rating)`: the sum is NaN exactly when the running total is already NaN or the rating does not parse; otherwise it is the total plus the rating |
| `Ratings.FormRatingValues` | src/components/feed.jsx:134-139 | the blank option parses to not-a-number, and the options "1" to "5" parse to 1 to 5 |
| `Aggregate.Categories` | src/components/feed.jsx:47-52 | the keys of the grouping are no more than the submissions, and there are none exactly when there are no submissions |
| `Aggregate.IndexOf` | src/components/feed.jsx:50 | the key lookup returns the first bucket with that key, or nothing exactly when no bucket has that key |
| `Aggregate.Lookup` | src/components/feed.jsx:50-54 | `groupedFeedback[type]`: nothing exactly when no bucket has that key; otherwise the bucket stored under that key |
| `Aggregate.GroupFeedbackByType` | src/components/feed.jsx:44-58 | the loop that creates buckets on first sight and adds to them produces exactly the declarative grouping `Grouped` of the list |
| `Aggregate.GroupedSnoc` | src/components/feed.jsx:47-55 | one more submission adds its parsed rating and one count to its category's bucket; a new category gets a new bucket (total 0 plus the rating, count 1) at the end of the key order; all other buckets are unchanged |
| `Aggregate.AbsentCategory` | src/components/feed.jsx:50-51 | a category that no submission carries has count 0 and the initial total 0 |
| `Aggregate.CategoriesAreTypes` | src/components/feed.jsx:47-52 | the keys are exactly the feedbackType values that occur in the list |
| `Aggregate.CategoriesDistinct` | src/components/feed.jsx:50-52 | no key appears twice |
| `Aggregate.CategoriesInFirstOccurrenceOrder` | src/components/feed.jsx:159-160 | the keys are enumerated in the order in which each category first occurs in the list |
| `Aggregate.CountIsMultiplicity` | src/components/feed.jsx:54 | a category's count is the number of submissions carrying it |
| `Aggregate.LookupGrouped` | src/components/feed.jsx:48-54 | `grouped[c]` exists exactly for the categories that occur, and it holds that category's total and count |
| `Aggregate.GroupedOtherCategoriesUnchanged` | src/components/feed.jsx:48-54 | a submission does not change the bucket of any other category |
| `Aggregate.GroupedCounts` | src/components/feed.jsx:50-54 | every bucket's count is the number of its category's submissions and is at least 1, so the average's divisor at line 163 is never zero |
| `Aggregate.SumCountsUpdate` | src/components/feed.jsx:54 | replacing one bucket changes the sum of counts by exactly the change in that bucket's count |
| `Aggregate.GroupedCountsSumToLength` | src/components/feed.jsx:154 | the counts of all buckets add up to the length of the list, the "Feedback Received" figure |
| `Aggregate.GroupedEmptyIff` | src/components/feed.jsx:159 | the grouping is empty exactly when the list is empty |
| `Aggregate.TotalIsSumOrNaN` | src/components/feed.jsx:51-53 | a category's total is NaN exactly when one of its ratings does not parse, and otherwise it is the sum of its ratings |
| `Aggregate.DeliveryExample` | src/components/feed.jsx:47-55 | "Delivery" rated "4" then "2" gives total 6 and count 2 (average 3.00) |
| `Aggregate.UnratedExample` | src/components/feed.jsx:53 | a category whose only submission has a blank rating gets total NaN and count 1 |
| `FeedbackComponent.StatsPanel` | src/components/feed.jsx:153-182 | the header shows the number of submissions (line 154); the placeholder is shown exactly when the grouping has no key, and otherwise the cards are the grouping's buckets in key order |
| `FeedbackComponent.PanelOfList` | src/components/feed.jsx:153-182 | the panel shows the placeholder exactly when the list is empty; otherwise it shows one card per category in first-occurrence order, each with a non-zero count, and the counts add up to the header figure |
| `FeedbackComponent.Feedback.constructor` | src/components/feed.jsx:4-12 | the initial state is a blank form and an empty list |
| `FeedbackComponent.Feedback.HandleChange` | src/components/feed.jsx:20-23 | exactly the named field takes the new value; the other four fields, the list and storage are unchanged |
| `FeedbackComponent.Feedback.HandleSubmit` | src/components/feed.jsx:25-41 | the list is the old list with the submitted record appended: one longer, every earlier entry unchanged and in order. Storage equals the new list, and the form is blank again, as in the initial state |
| `FeedbackComponent.Feedback.Render` | src/components/feed.jsx:60 | the panel drawn on a render is the one for the current list and its declarative grouping |
| `FeedbackComponent.SubmitEach` | src/components/feed.jsx:25-41 | after N records are typed in and submitted from a fresh component, the list is exactly those N records, storage holds the same list once at least one record was submitted, and the form is blank |

## Left out

- The JSX markup and styling (lines 62-214) are not modelled. Only the header count, the empty-grouping test and the card order of the statistics panel are modelled.
- The mount effect (lines 14-18) is not modelled. It loads the list from storage with `localStorage` and `JSON.parse`, which are browser I/O and a foreign library. The constructor therefore models the state before that effect, with `stored` set to the storage content passed in.
- `JSON.stringify` and the real `localStorage` write (line 30) are not modelled. They are replaced by assigning the list to the abstract field `stored`.
- The average `totalRating / count` and `.toFixed(2)` (lines 162-164) are floating-point arithmetic and formatting. Only the non-zero divisor is stated.
- `console.log` (line 161) is not modelled.
- Races between browser tabs writing the same storage key are not modelled, since they involve concurrency.
- `Ratings.ParseRating`: covers `parseInt` only on strings with no leading whitespace, no sign and no `0x` prefix. On such strings `parseInt` would skip the whitespace, apply the sign, or read hexadecimal. The rating control only produces "" and "1" to "5", and those are covered exactly.
- `FeedbackComponent.Feedback.HandleChange` takes the field as an enumerated identifier rather than the raw `name` string. An unknown name would add a sixth key to the record. This cannot happen, because every control carries one of the five names (`Records.FieldNamed` relates the two).
- `Aggregate.GroupFeedbackByType` replaces a bucket's value in the list instead of mutating a shared bucket object. The bucket objects are returned inside `groupedFeedback` (line 57) and read again at lines 163 and 175, but only their own key refers to each of them and nothing changes them after the return, so no aliasing is lost.
- Plain-object key quirks are not modelled: array-index-like category strings, which JavaScript would enumerate first, and `"__proto__"`/`"toString"` keys. None of the form's category values is such a key.
- `FeedbackComponent.SubmitEach` starts the session before the mount effect loads the stored list (lines 16-17). With a non-empty store, the program's list and storage after N submissions are the stored list followed by the N entries, not the entries alone. The method also does not model the browser's `type="email"` check (line 109), which stops the submit event when the email is non-empty and malformed.
- `Ratings.ParseRating`, `Ratings.ParseStopsAtNonDigit` and `Ratings.ParseDecimal` use unbounded integers. `parseInt` returns a double-precision number, so their values are exact only up to 2^53: above that it rounds, and for values of about 1.8e308 or more it returns Infinity. The running `totalRating` is a floating-point sum with the same limit. The rating control only produces "" and "1" to "5", well inside that range.
