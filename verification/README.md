# Book music and MBTI travel planner — a Dafny model

This project models the computational core of two small Streamlit pages.

- **The book-to-playlist page** (`test.py`). `norm_text` normalises a text. `infer_moods` scores the eleven
  playlist moods against the text of a book's title, subjects and tags:
  - every keyword of a rule found in the text gives the rule's mood 2 points and one reason;
  - when nothing matched, the default mood `calm_focus` gets 1 point and a default reason;
  - the moods are then sorted by score, stably, in declaration order, and the first three are returned with
    their reasons joined by `"; "` (or a fallback sentence when a mood has none).
- **The travel planner** (`main.py`). It holds a table of the 16 MBTI types: each type's style, three
  destinations and five activities.
  - `get_all_mbti` lists the types in sorted order.
  - `sample_destinations` picks destinations without repetition.
  - `generate_itinerary` builds a day-by-day plan. Destinations are used round-robin, and each day draws up to
    three distinct activities for the morning, afternoon and evening slots, with fixed fallbacks.
  - `df_to_markdown` renders the plan as markdown lines.

Modules:

- `Text` (`text.dfy`): the string operations the pages use — whitespace as `str.isspace` defines it, ASCII
  lowering, `join`, one-character `split`, `split()` on whitespace, substring search, `strip` and whitespace
  collapsing, with the facts about collapsing, stripping and lowering that the normaliser's contract rests on.
- `Ranking` (`ranking.dfy`): Python's stable `sorted`, specialised to ranking positions by descending score
  and to sorting distinct strings.
- `BookMusic` (`book_music.dfy`): `norm_text`, the playlist, rule and default tables, and `infer_moods`.
  - Specification functions: `FinalScore`, `FinalReasons`, `Ranked` and `Recommend`.
  - Imperative procedure: `InferMoods`, `TallyRule`, `AddDefault` and `RankPlaylists`, proved equal to
    `Recommend`.
  - Lemmas stating what the recommendation means.
- `TravelData` (`travel_data.dfy`): the `DATA` table, without the free-text descriptions.
- `Travel` (`travel.dfy`): `get_all_mbti`, `sample_destinations`, `generate_itinerary` and `df_to_markdown`.

Randomness and dates come in as parameters:

- A call to `random.sample` is represented by its *draw*. The draw is the sequence of positions chosen among
  the elements not yet taken, and the caller supplies it.
- A date is a day number, and `strftime` is a caller-supplied function `formatDate`.

## Model

| member | source | states |
|---|---|---|
| BookMusic.NormText | test.py:30-31 | the result is the words of the input (its maximal runs of non-whitespace, as `str.split()` gives them) joined by single spaces and lowered; hence it is trimmed, has no whitespace other than single inner spaces and is lower case; a missing or empty text gives "" |
| Text.WordsAreWords | test.py:31 | no piece of `Words`, the reference split on whitespace runs that `NormText` is stated against, is empty or contains whitespace |
| Text.CollapseWords | test.py:31 | collapsing every whitespace run to one space and stripping the ends gives exactly the words joined by single spaces |
| BookMusic.NormTextFixedPoints | test.py:30-31 | a string is left unchanged by the normaliser exactly when it is trimmed, has collapsed spaces and is lower case |
| BookMusic.NormTextIdempotent | test.py:30-31 | normalising a normalised text changes nothing |
| BookMusic.BooksWellFormed | test.py:34-62 | the page's tables are consistent: 11 distinct playlist keys in declaration order starting with calm_focus, epic_adventure, cozy_romance; every rule's mood and the default mood are keys |
| BookMusic.TallyRule | test.py:100-103 | one rule's keyword loop adds 2 points and one reason to the rule's mood for each keyword found in the text, in keyword order, and leaves every other mood as it was |
| BookMusic.AddDefault | test.py:105-107 | the flag is true exactly when every score is 0; then and only then the default mood gains 1 point and the default reason; nothing else changes |
| BookMusic.RankPlaylists | test.py:105-111 | given the keyword-pass tables, the default step, the stable ranking and the top-three cut yield exactly the specified recommendation |
| BookMusic.InferMoods | test.py:94-111 | the procedure returns the specified recommendation for the lowered, space-joined title, subjects and tags |
| BookMusic.KeywordCount | test.py:100-103 | one rule records exactly one reason per keyword found in the text |
| BookMusic.MatchCount | test.py:99-103 | the reasons recorded for a mood are as many as the (rule, keyword) pairs that vote for it and occur in the text |
| BookMusic.ScoreCountsPairs | test.py:99-107 | a mood's final score is twice its number of matching (rule, keyword) pairs, plus 1 for the default mood when nothing matched; its reasons are as many as its points from pairs plus the default reason |
| BookMusic.NoMatchIffNoKeyword | test.py:99-105 | the default step fires exactly when no keyword of any rule occurs in the text |
| BookMusic.MatchReasonsStart | test.py:103 | every recorded reason is non-empty and starts with the keyword marker |
| BookMusic.ReasonTextMeaning | test.py:110 | a returned reason text is the fallback sentence exactly when the mood has no reasons, and otherwise its reasons joined by "; " |
| BookMusic.SharedKeyword | test.py:52-57 | a text containing 스릴러 scores at least 2 for both mystery_noir and thriller_dark, because both rules list it |
| BookMusic.RecommendEntries | test.py:109-110 | the result has min(3, number of playlists) entries; entry i is the key at ranked position i with that key's reason text |
| BookMusic.RecommendOrder | test.py:109-110 | the returned moods are in order of non-increasing score, ties in declaration order, and each outranks every mood not returned |
| BookMusic.RecommendDistinct | test.py:109-110 | no mood is returned twice |
| BookMusic.NoMatchRanked | test.py:105-109 | when nothing matched, the ranking is the declaration order, given that the default mood is declared first |
| BookMusic.NoMatchRecommend | test.py:105-110 | when nothing matched, the result is the first three declared moods: the default one with the default reason, the next two with the fallback sentence |
| Ranking.SortDesc | test.py:109 | the ranking is a permutation of the positions in which scores never increase and equal scores keep declaration order |
| Ranking.SortDescRanked | test.py:109 | the sort is stable: positions already in ranked order are returned unchanged |
| Ranking.SortStrings | main.py:292-293 | sorting distinct strings gives a permutation in strictly ascending code-point order |
| Ranking.LexLessTransitive | main.py:292-293 | the string order used by the sort is transitive |
| Ranking.LexLessTotal | main.py:292-293 | any two different strings are ordered one way or the other |
| TravelData.DataKeys | main.py:19-276 | the table has exactly 16 distinct keys, the MBTI types in declaration order |
| TravelData.DataSizes | main.py:19-276 | every type has three destinations and five activities |
| TravelData.DataDistinct | main.py:19-276 | no type lists a destination or an activity twice |
| Travel.GetAllMbti | main.py:292-293 | the result has 16 entries in strictly ascending order, and a type is in it exactly when it is a key of the table |
| Travel.Sample | main.py:313-317 | a sample with a valid draw has one element per pick, takes every element of the pool at most as often as it occurs there, and is duplicate-free when the pool is |
| Travel.SampleDestinations | main.py:313-317 | when the count covers the list, the whole list in its order; otherwise exactly count destinations of the list, none taken twice |
| Travel.PageDestinations | main.py:313-317 | on the page's own table, the result is min(count, 3) pairwise-different destinations of the type |
| Travel.GenerateItinerary | main.py:319-343 | the plan has max(days, 0) rows, row i being the specified row of day i |
| Travel.ItineraryRows | main.py:319-343 | row i has the date base_date + i, the destination selected[i mod len(selected)], the type's style and the fixed meals text; the morning holds one of the activities; the afternoon another one, or the free-time text with fewer than two; the evening a third, or the night-walk text with fewer than three |
| Travel.RowsThreeDistinct | main.py:328-331 | when a type has at least three distinct activities, every day's morning, afternoon and evening hold three different activities of the type |
| Travel.PageItinerary | main.py:319-343 | on the page's own table every day of the plan holds three different activities of the chosen type, never a fallback text |
| Travel.DfToMarkdown | main.py:345-357 | the markdown is the title line, an empty line and six lines per row, joined with newlines |
| Travel.MarkdownLineCount | main.py:345-357 | splitting the markdown at newlines gives back exactly those lines, 2 + 6n of them for n rows, provided the fields hold no newline |
| Text.SplitJoin | main.py:357 | splitting a newline-joined text gives back the lines when no line contains a newline |

## Left out

- `fetch_openlibrary` (the HTTP call to Open Library), `build_map` (folium), the Streamlit widgets, the
  pandas `DataFrame`, the CSV download and the image table are I/O or presentation and are not modelled.
- The playlist names, URLs and tags, and the free-text descriptions of the travel types, are only displayed
  and are not modelled. The playlist table is reduced to its keys in declaration order.
- `random.sample` is not modelled as a random source. Every call is replaced by a caller-supplied draw, and
  every draw describes a possible sample.
- `strftime` and date arithmetic are replaced by a day number and a caller-supplied formatting function.
  Calendar overflow is not modelled.
- BookMusic.NormText: lowering covers only the ASCII letters, not full Unicode case mapping. Unicode
  lowering can change the length of a string; the Korean text of the tables has no case.
- BookMusic.InferMoods: the same ASCII-only lowering applies to the search text and the keywords. A
  character whose Unicode lowercase differs (such as `İ`, which Python lowers to `i` and a combining dot)
  can make Python find a keyword that the model does not find, so the default may fire in the model
  where Python scores a rule.
- BookMusic.InferMoods: it is stated for any well-formed catalogue. For the page's own tables,
  BooksWellFormed supplies the precondition. A catalogue in which a rule's mood or the default mood is
  missing from the playlist table is excluded by that precondition. Python would raise `KeyError` for such a
  catalogue only on some inputs: for a rule's mood when one of that rule's keywords is found, and for the
  default mood when nothing matched. That error is not modelled.
- Travel.SampleDestinations: the default argument `count=2` of `sample_destinations` is not modelled; the
  count is always passed explicitly, as the page itself does.
- Travel.SampleDestinations: an unknown type (a `KeyError`) and a negative count (a `ValueError` from
  `random.sample`) are excluded by its precondition rather than modelled as errors.
- Travel.GenerateItinerary: an empty destination selection (division by zero) and an empty activity list
  (an index error) are excluded by its precondition when at least one day is planned. An unknown type is
  excluded too.
- The latitude and longitude of a destination are kept only to be passed along. They are written as whole
  numbers of ten-thousandths of a degree, which represents every coordinate in the table exactly.
