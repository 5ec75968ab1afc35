/**
  The three lists the useMovies home page draws its random picks from, and
  the facts about them that keep the picks' cache keys apart: no list repeats
  a name, and no movie genre can be mistaken for a `tv-` or `keyword-` key.
 */
module HomeLists {
  const MovieGenres: seq<string> := [
    "action", "adventure", "animation", "comedy", "crime", "documentary",
    "drama", "family", "fantasy", "history", "horror", "music", "mystery",
    "romance", "science-fiction", "thriller", "war", "western"]

  const TvGenres: seq<string> := [
    "action-adventure", "animation", "comedy", "crime", "documentary",
    "drama", "family", "kids", "mystery", "reality", "sci-fi-fantasy",
    "soap", "talk", "war-politics", "western"]

  const Keywords: seq<string> := [
    "superhero", "post-apocalyptic", "space", "time-travel",
    "cyberpunk", "sitcom", "workplace-comedy", "period-drama", "medical-drama",
    "legal-drama", "teen-drama", "dark-comedy", "anthology", "anime",
    "thriller", "psychological", "heist", "spy", "martial-arts"]

  /** No element occurs twice. */
  ghost predicate Distinct<T>(s: seq<T>) {
    forall i, j :: 0 <= i < j < |s| ==> s[i] != s[j]
  }

  /** A name that cannot be mistaken for a `tv-` or `keyword-` key. */
  predicate Unprefixed(name: string) {
    |name| > 0 && name[0] != 'k' && !(|name| >= 3 && name[0] == 't' && name[1] == 'v' && name[2] == '-')
  }

  /** The three lists have no repeats and no movie genre looks like a prefixed key. */
  lemma ListsAreUnambiguous()
    ensures Distinct(MovieGenres) && Distinct(TvGenres) && Distinct(Keywords)
    ensures forall k :: 0 <= k < |MovieGenres| ==> Unprefixed(MovieGenres[k])
  {
    MovieGenresDistinct();
    TvGenresDistinct();
    KeywordsDistinct();
    MovieGenresUnprefixed();
  }

  /** No element of `a` occurs in `b`. */
  ghost predicate Apart<T>(a: seq<T>, b: seq<T>) {
    forall i, j :: 0 <= i < |a| && 0 <= j < |b| ==> a[i] != b[j]
  }

  /** A list is without repeats when both halves are and no element of the front recurs in the
      back. The literal lists are checked half by half this way, which keeps each proof small. */
  lemma HalvesDistinct<T>(s: seq<T>, k: nat)
    requires k <= |s|
    requires Distinct(s[..k]) && Distinct(s[k..]) && Apart(s[..k], s[k..])
    ensures Distinct(s)
  {
    forall i, j | 0 <= i < j < |s| ensures s[i] != s[j] {
      if j < k {
        assert s[i] == s[..k][i] && s[j] == s[..k][j];
      } else if i < k {
        assert s[i] == s[..k][i] && s[j] == s[k..][j - k];
      } else {
        assert s[i] == s[k..][i - k] && s[j] == s[k..][j - k];
      }
    }
  }

  lemma MovieGenresDistinct()
    ensures Distinct(MovieGenres)
  {
    MovieGenresFront();
    MovieGenresBack();
    MovieGenresApart();
    HalvesDistinct(MovieGenres, 9);
  }

  lemma MovieGenresFront()
    ensures Distinct(MovieGenres[..9])
  {
  }

  lemma MovieGenresBack()
    ensures Distinct(MovieGenres[9..])
  {
  }

  lemma MovieGenresApart()
    ensures Apart(MovieGenres[..9], MovieGenres[9..])
  {
  }

  lemma TvGenresDistinct()
    ensures Distinct(TvGenres)
  {
    TvGenresFront();
    TvGenresBack();
    TvGenresApart();
    HalvesDistinct(TvGenres, 8);
  }

  lemma TvGenresFront()
    ensures Distinct(TvGenres[..8])
  {
  }

  lemma TvGenresBack()
    ensures Distinct(TvGenres[8..])
  {
  }

  lemma TvGenresApart()
    ensures Apart(TvGenres[..8], TvGenres[8..])
  {
  }

  lemma KeywordsDistinct()
    ensures Distinct(Keywords)
  {
    KeywordsFront();
    KeywordsBack();
    KeywordsApart();
    HalvesDistinct(Keywords, 10);
  }

  lemma KeywordsFront()
    ensures Distinct(Keywords[..10])
  {
  }

  lemma KeywordsBack()
    ensures Distinct(Keywords[10..])
  {
  }

  lemma KeywordsApart()
    ensures Apart(Keywords[..10], Keywords[10..])
  {
  }

  lemma MovieGenresUnprefixed()
    ensures forall k :: 0 <= k < |MovieGenres| ==> Unprefixed(MovieGenres[k])
  {
  }
}
