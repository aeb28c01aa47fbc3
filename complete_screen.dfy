/** The result screen of the React rework: the final score becomes a star count and a
    rating, which are reported once to the state hook, and decide whether confetti is
    thrown. The timed star animation and its sounds are presentation and are left out. */
module CompleteScreen {
  import LegacyKitchen

  /** `ReactionType`. */
  datatype Rating = Perfect | Good | Ok | Bad

  /** What the score effect computes and what it shows afterwards. */
  datatype Evaluation = Evaluation(stars: int, rating: Rating, confetti: bool)

  /** The score effect: at least 90 is three stars and PERFECT, at least 70 two stars and
      GOOD, at least 50 one star and OK, and anything lower one star and BAD. */
  function Evaluate(score: int): (e: Evaluation)
    ensures 1 <= e.stars <= 3
    ensures e.rating == Perfect <==> score >= 90
    ensures e.rating == Good <==> 70 <= score < 90
    ensures e.rating == Ok <==> 50 <= score < 70
    ensures e.rating == Bad <==> score < 50
    ensures e.stars == 3 <==> e.rating == Perfect
    ensures e.stars == 2 <==> e.rating == Good
    ensures e.stars == 1 <==> e.rating in {Ok, Bad}
    ensures e.confetti <==> e.stars >= 2
  {
    var (stars, rating) :=
      if score >= 90 then (3, Perfect)
      else if score >= 70 then (2, Good)
      else if score >= 50 then (1, Ok)
      else (1, Bad);
    Evaluation(stars, rating, stars >= 2)
  }

  /** A higher score never earns fewer stars. */
  lemma EvaluateMonotone(score: int, higher: int)
    requires score <= higher
    ensures Evaluate(score).stars <= Evaluate(higher).stars
  {
  }

  /** The rework awards the same stars as the legacy game for every score; only the rating
      splits the one-star band at 50. */
  lemma StarsAgreeWithLegacy(score: int)
    ensures Evaluate(score).stars == LegacyKitchen.StarsFor(score)
  {
  }
}
