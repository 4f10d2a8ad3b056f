/**
 * The option lists offered by the entry form's drop-downs
 * (`get_airtable_select_options`): a fixed list of condition codes for the
 * ETAT field, the category names for the RAYON field sorted case-insensitively
 * in place, and nothing for any other field.
 */
module SelectOptions {
  import opened Strings

  const FieldEtat := "ETAT"
  const FieldRayon := "RAYON"

  /** The condition codes, in display order. */
  const Etats: seq<string> := ["EC", "BE", "TB", "CN", "NE"]

  /** The category names, in the order the source lists them before sorting. */
  const RayonsLiteral: seq<string> := [
    "psychanalyse", "histoire", "Jeunesse", "psychologie", "Politinternatio", "art",
    "Sciencespol", "poesie", "Sociologie", "Objetscoll", "Cuisine", "Ethnologie",
    "Economie", "Philosophie", "musique", "Mer", "Quesaisje", "Poche", "Classiquespoche",
    "Esoterisme", "Essais", "Bouddhisme", "Religion", "Romans", "Bd", "photographie",
    "Dictionnaire", "critiqlitt", "Scolaire", "educ", "pochehistoire", "Poches",
    "pochessciences", "litterature", "Droit", "sf", "archeologie", "Regionalisme",
    "Medecine", "Animaux", "corresponda", "cinémaacteuramér", "style",
    "musiquechantgroupes", "Ecologiequotid", "bienetre", "Communisme", "sexualité",
    "politiqfra", "Sciences", "judaisme", "mondearabe", "romananglaisssol", "erotique",
    "Biographies", "Geographie", "collbouquins", "paysmonaco", "spiritualite",
    "greceantiq", "mythologie", "cinessais", "edition", "pleiade",
    "apprentissageanglais", "ange", "cinema", "folklore", "tablactusssol",
    "Architecture", "theatre", "revueslitt", "pedagogie", "tableactu",
    "medecinenaturelle", "savoirvivre", "paysafrique", "aviation", "vitrineregio",
    "justice", "linguistique", "jeandebonnot", "pochepolicier", "romanspolicierbroch",
    "theologie", "Pressejournalism", "biographie", "Sport", "bricolage", "Europe",
    "nationalisme", "Danse", "Techniques", "Espagne", "societe", "anthropologie",
    "latinpoche", "Jeux", "voyage", "femme", "adolescence", "pochepolitique",
    "autobiographie", "Communication", "antiquite", "Concours", "Guides", "algerie",
    "montagne", "lettres", "journauxsouvenirs", "asie", "entreprise", "maternité",
    "humour", "parentalite", "financepublique", "dietetique", "psychiatrie",
    "ameriquelatine", "Prostitution", "Acteurs", "grec", "puericulture",
    "vitrinefacecaisse", "Dictionnaires", "trains", "automoto", "francmaconnerie",
    "Brocante", "fantastique", "media", "Geopolitique", "Societessecretes",
    "francaispouretranger", "langue russe", "paris", "moyen orient", "fantasy",
    "revue philosophie", "pays", "templiers", "manga", "Viesquotidiennes", "Botanique",
    "Vin", "Graphologie", "Afriquedunord", "alchimie", "Bellesreliuresromanpop",
    "Objetscollectimbres", "languarabe", "editionoriginale", "methodenicois",
    "romanpopulaire", "VOalld", "astronomie", "philopolitique", "epistemologie",
    "englishbooks", "methodelangueital", "VOangloessais", "romanvoyage", "regionparis",
    "methodelangueespagnol", "champignon", "nature", "vousheros", "def", "Couple",
    "informatique", "Racisme", "biologie", "2dguerre", "DeGaulle", "classiqanglais",
    "sciencespolit", "chimie", "yoga", "methodelangue", "scolaireancien", "plantes",
    "peintresvallotton", "langnissart", "préhistoire", "relationsinternational"
  ]

  /** `a` comes no later than `b` under `sort(key=str.lower)`. */
  predicate KeyLe(a: string, b: string) {
    LexLe(Lower(a), Lower(b))
  }

  /** Sorted non-decreasingly by the lower-case key. */
  ghost predicate Sorted(s: seq<string>) {
    forall i, j :: 0 <= i < j < |s| ==> KeyLe(s[i], s[j])
  }

  /** Each element is no greater than its successor under the lower-case key. */
  ghost predicate AdjacentSorted(s: seq<string>) {
    forall i :: 0 < i < |s| ==> KeyLe(s[i - 1], s[i])
  }

  /** Ordering neighbours is enough, because the key order is transitive. */
  lemma {:induction false} AdjacentSortedIsSorted(s: seq<string>)
    requires AdjacentSorted(s)
    ensures Sorted(s)
  {
    if |s| > 1 {
      var t := s[..|s| - 1];
      assert AdjacentSorted(t);
      AdjacentSortedIsSorted(t);
      forall i | 0 <= i < |s| - 1
        ensures KeyLe(s[i], s[|s| - 1])
      {
        if i < |s| - 2 {
          assert KeyLe(t[i], t[|s| - 2]);
          LexLeTransitive(Lower(s[i]), Lower(s[|s| - 2]), Lower(s[|s| - 1]));
        }
      }
    }
  }

  /** Exchanges `a[p - 1]` and `a[p]`. */
  method SwapWithPrevious(a: array<string>, p: nat)
    requires 0 < p < a.Length
    modifies a
    ensures a[..] == old(a[..])[p - 1 := old(a[p])][p := old(a[p - 1])]
    ensures multiset(a[..]) == multiset(old(a[..]))
  {
    a[p - 1], a[p] := a[p], a[p - 1];
  }

  /**
   * One pass of the insertion sort: moves `a[i]` left past every element of
   * the sorted prefix `a[..i]` whose key is strictly greater.
   */
  method InsertIntoSortedPrefix(a: array<string>, i: nat)
    requires i < a.Length
    requires AdjacentSorted(a[..i])
    modifies a
    ensures AdjacentSorted(a[..i + 1])
    ensures multiset(a[..]) == multiset(old(a[..]))
  {
    var j := i;
    while 0 < j && !KeyLe(a[j - 1], a[j])
      invariant 0 <= j <= i
      invariant AdjacentSorted(a[..j])
      invariant AdjacentSorted(a[j..i + 1])
      invariant 0 < j < i ==> KeyLe(a[j - 1], a[j + 1])
      invariant multiset(a[..]) == multiset(old(a[..]))
    {
      LexLeTotal(Lower(a[j - 1]), Lower(a[j]));
      SwapWithPrevious(a, j);
      j := j - 1;
    }
  }

  /**
   * `rayons.sort(key=str.lower)`: an insertion sort in place, growing a
   * sorted prefix one element at a time.
   */
  method SortByKey(a: array<string>)
    modifies a
    ensures Sorted(a[..])
    ensures multiset(a[..]) == multiset(old(a[..]))
  {
    var i := 0;
    while i < a.Length
      invariant 0 <= i <= a.Length
      invariant AdjacentSorted(a[..i])
      invariant multiset(a[..]) == multiset(old(a[..]))
    {
      InsertIntoSortedPrefix(a, i);
      i := i + 1;
    }
    assert a[..] == a[..a.Length];
    AdjacentSortedIsSorted(a[..]);
  }

  /**
   * `get_airtable_select_options`: the table name is not consulted; ETAT
   * gives the condition codes, RAYON the category names sorted by their
   * lower-case form, any other field an empty list.
   */
  method GetSelectOptions(tableName: string, fieldName: string) returns (options: seq<string>)
    ensures fieldName == FieldEtat ==> options == ["EC", "BE", "TB", "CN", "NE"]
    ensures fieldName == FieldRayon ==>
      && Sorted(options)
      && multiset(options) == multiset(RayonsLiteral)
      && |options| == |RayonsLiteral|
    ensures fieldName != FieldEtat && fieldName != FieldRayon ==> options == []
  {
    if fieldName == FieldEtat {
      options := Etats;
    } else if fieldName == FieldRayon {
      var rayons := new string[|RayonsLiteral|](k requires 0 <= k < |RayonsLiteral| => RayonsLiteral[k]);
      assert rayons[..] == RayonsLiteral;
      SortByKey(rayons);
      options := rayons[..];
    } else {
      options := [];
    }
  }
}
