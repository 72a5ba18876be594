/**
 * The joke catalog and the two joke selectors of `JokeService`.
 *
 * `Math.random()` is the only nondeterminism; it is a parameter `roll`
 * with `0 <= roll < 1`, and the selected index is `floor(roll * length)`,
 * as in the source.
 */
module Jokes {
  import opened Wrappers

  datatype Category = Trading | Market | Crypto | General

  datatype Difficulty = Easy | Medium | Advanced

  datatype Joke = Joke(id: string, setup: string, punchline: string, category: Category, difficulty: Difficulty)

  /** `TRADING_JOKES`, in source order. */
  const Catalog: seq<Joke> := [
    Joke("joke_1", "Why don't traders ever get lost?",
         "Because they always know where the market is heading! 📈", Trading, Easy),
    Joke("joke_2", "What's a trader's favorite music?",
         "Bull market jazz! 🎵", Market, Easy),
    Joke("joke_3", "Why did the day trader break up with their girlfriend?",
         "She had too much volatility and not enough support! 💔", Trading, Medium),
    Joke("joke_4", "What do you call a crypto investor who's always calm?",
         "A HODLer with diamond hands! 💎🙌", Crypto, Easy),
    Joke("joke_5", "Why don't bears ever win at poker?",
         "Because they always fold! 🐻", Market, Easy),
    Joke("joke_6", "What's the difference between a trader and a pizza?",
         "A pizza can feed a family of four! 🍕", Trading, Medium),
    Joke("joke_7", "Why did the algorithm go to therapy?",
         "It had too many emotional stops! 🤖", Trading, Advanced),
    Joke("joke_8", "What's a swing trader's favorite dance?",
         "The market swing! 💃", Trading, Easy),
    Joke("joke_9", "Why don't scalpers ever get speeding tickets?",
         "They're always in and out too fast! ⚡", Trading, Medium),
    Joke("joke_10", "What did the candlestick say to the moving average?",
         "Stop following me around! 🕯️", Trading, Advanced),
    Joke("joke_11", "Why did the forex trader go to the doctor?",
         "They had a bad case of currency fever! 🌡️", Trading, Medium),
    Joke("joke_12", "What's a bear market's favorite season?",
         "Fall! 🍂", Market, Easy)
  ]

  /** `jokes.filter(p)`: the entries satisfying `p`, in their original order. */
  function Filter(jokes: seq<Joke>, p: Joke -> bool): (r: seq<Joke>)
    ensures |r| <= |jokes|
    ensures forall j :: j in r <==> j in jokes && p(j)
  {
    if jokes == [] then []
    else if p(jokes[0]) then [jokes[0]] + Filter(jokes[1..], p)
    else Filter(jokes[1..], p)
  }

  /** `Math.floor(roll * n)` for `0 <= roll < 1`: a valid index into a list of length `n`. */
  function PickIndex(roll: real, n: nat): (k: nat)
    requires 0.0 <= roll < 1.0 && n > 0
    ensures k < n
  {
    var x := roll * n as real;
    assert x < n as real by {
      assert (1.0 - roll) * n as real > 0.0;
    }
    x.Floor
  }

  /** A joke passes the category filter when no category is given or the categories agree. */
  predicate InCategory(j: Joke, category: Option<Category>) {
    category.None? || j.category == category.value
  }

  /** The list `getRandomJoke` draws from: unused jokes of the category, else the whole catalog. */
  function Candidates(used: seq<string>, category: Option<Category>): (r: seq<Joke>)
    ensures |r| > 0
    ensures forall j :: j in r ==> j in Catalog
  {
    var available := Filter(Catalog, (j: Joke) => j.id !in used);
    var available := if category.Some? then Filter(available, (j: Joke) => j.category == category.value) else available;
    if |available| == 0 then Catalog else available
  }

  /** Some catalog joke is unused and in the requested category. */
  ghost predicate FreshJokeExists(used: seq<string>, category: Option<Category>) {
    exists j :: j in Catalog && j.id !in used && InCategory(j, category)
  }

  /**
   * `JokeService.getRandomJoke`. The result is never null: it is an unused joke
   * of the category whenever one exists, and otherwise a joke of the whole catalog.
   */
  function GetRandomJoke(used: seq<string>, category: Option<Category>, roll: real): (r: Option<Joke>)
    requires 0.0 <= roll < 1.0
    ensures r.Some? && r.value in Catalog
    ensures FreshJokeExists(used, category) ==> r.value.id !in used && InCategory(r.value, category)
  {
    var candidates := Candidates(used, category);
    Some(candidates[PickIndex(roll, |candidates|)])
  }

  /** When no joke survives both filters, the draw is from the entire catalog. */
  lemma FallbackIsWholeCatalog(used: seq<string>, category: Option<Category>)
    requires !FreshJokeExists(used, category)
    ensures Candidates(used, category) == Catalog
  {
    var available := Filter(Catalog, (j: Joke) => j.id !in used);
    var available' := if category.Some? then Filter(available, (j: Joke) => j.category == category.value) else available;
    if |available'| > 0 {
      assert available'[0] in available';
    }
  }

  /** While a fresh joke of the category exists, every candidate is fresh and in the category. */
  lemma CandidatesAreFresh(used: seq<string>, category: Option<Category>)
    requires FreshJokeExists(used, category)
    ensures forall j :: j in Candidates(used, category) ==> j.id !in used && InCategory(j, category)
  {
    var j :| j in Catalog && j.id !in used && InCategory(j, category);
    var available := Filter(Catalog, (j: Joke) => j.id !in used);
    assert j in available;
  }

  /** `JokeService.formatJoke`: the setup, a blank line, then the punchline. */
  function FormatJoke(j: Joke): string {
    j.setup + "\n\n" + j.punchline
  }

  /** The rendering can be split back into the setup and the punchline. */
  lemma FormatJokeParts(j: Joke)
    ensures |FormatJoke(j)| == |j.setup| + 2 + |j.punchline|
    ensures FormatJoke(j)[..|j.setup|] == j.setup
    ensures FormatJoke(j)[|j.setup|..|j.setup| + 2] == "\n\n"
    ensures FormatJoke(j)[|j.setup| + 2..] == j.punchline
  {
  }

  /** Some catalog joke has the difficulty and is unused. */
  ghost predicate FreshOfDifficulty(d: Difficulty, used: seq<string>) {
    exists j :: j in Catalog && j.difficulty == d && j.id !in used
  }

  /**
   * `JokeService.getJokeByDifficulty`: null exactly when no unused joke of the
   * difficulty exists; otherwise an unused joke of that difficulty.
   */
  function GetJokeByDifficulty(d: Difficulty, used: seq<string>, roll: real): (r: Option<Joke>)
    requires 0.0 <= roll < 1.0
    ensures r.None? <==> !FreshOfDifficulty(d, used)
    ensures r.Some? ==> r.value in Catalog && r.value.difficulty == d && r.value.id !in used
  {
    var available := Filter(Catalog, (j: Joke) => j.difficulty == d && j.id !in used);
    if |available| == 0 then None
    else
      var k := PickIndex(roll, |available|);
      assert available[k] in available;
      Some(available[k])
  }

  /** The catalog holds twelve jokes with distinct ids. */
  lemma CatalogIdsDistinct()
    ensures |Catalog| == 12
    ensures forall a, b :: 0 <= a < b < |Catalog| ==> Catalog[a].id != Catalog[b].id
  {
  }

  /** `joke_4` is the only crypto joke, and no joke is in the general category. */
  lemma CatalogCategories()
    ensures forall k :: 0 <= k < |Catalog| ==> (Catalog[k].category == Crypto <==> Catalog[k].id == "joke_4")
    ensures forall k :: 0 <= k < |Catalog| ==> Catalog[k].category != General
  {
  }

  /** A `general` request always falls back to the whole catalog, whatever has been used. */
  lemma GeneralFallsBack(used: seq<string>)
    ensures Candidates(used, Some(General)) == Catalog
  {
    CatalogCategories();
    FallbackIsWholeCatalog(used, Some(General));
  }

  /** A crypto request yields `joke_4` until it is used. */
  lemma CryptoWhileFresh(used: seq<string>, roll: real)
    requires 0.0 <= roll < 1.0
    requires "joke_4" !in used
    ensures GetRandomJoke(used, Some(Crypto), roll).value.id == "joke_4"
  {
    var joke4 := Catalog[3];
    assert joke4 in Catalog && joke4.id == "joke_4" && joke4.category == Crypto;
    CandidatesAreFresh(used, Some(Crypto));
    CatalogCategories();
  }
}
