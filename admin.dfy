/** The admin dashboard's slug generator, the rules deciding when typing a
    name rewrites the slug field, and the two form schemas. Text is ASCII
    here: `toLowerCase` maps `A`-`Z` only. */
module Admin {
  import opened Seqs

  // ---------------------------------------------------------------------
  // generateSlug

  function Lower(c: char): (d: char)
    ensures 'A' <= c <= 'Z' ==> 'a' <= d <= 'z'
    ensures !('A' <= c <= 'Z') ==> d == c
  {
    if 'A' <= c <= 'Z' then (c as int + 32) as char else c
  }

  /** `toLowerCase()`. */
  function LowerAll(s: string): (r: string)
    ensures |r| == |s| && forall i :: 0 <= i < |s| ==> r[i] == Lower(s[i])
    decreases |s|
  {
    if s == [] then [] else [Lower(s[0])] + LowerAll(s[1..])
  }

  lemma {:induction false} LowerAllFixed(s: string)
    requires forall i :: 0 <= i < |s| ==> !('A' <= s[i] <= 'Z')
    ensures LowerAll(s) == s
    decreases |s|
  {
    if s != [] {
      LowerAllFixed(s[1..]);
    }
  }

  /** The characters of the regular-expression class `\w`. */
  predicate IsWordChar(c: char)
  {
    'a' <= c <= 'z' || 'A' <= c <= 'Z' || '0' <= c <= '9' || c == '_'
  }

  predicate KeptBySlug(c: char)
  {
    IsWordChar(c) || c == ' '
  }

  /** `replace(/[^\w ]+/g, "")`: every character outside `\w` and space goes. */
  function StripNonWord(s: string): (r: string)
    ensures forall c :: c in r <==> c in s && KeptBySlug(c)
    ensures |r| <= |s|
    decreases |s|
  {
    if s == [] then []
    else
      var rest := StripNonWord(s[1..]);
      assert s == [s[0]] + s[1..];
      if KeptBySlug(s[0]) then [s[0]] + rest else rest
  }

  /** The deletion is `filter` on the kept characters: the survivors, in
      their order and with their repetitions. */
  lemma {:induction false} StripNonWordIsFilter(s: string)
    ensures StripNonWord(s) == Filter(s, KeptBySlug)
    decreases |s|
  {
    if s != [] {
      StripNonWordIsFilter(s[1..]);
    }
  }

  lemma {:induction false} StripNonWordKeepsAll(s: string)
    requires forall i :: 0 <= i < |s| ==> KeptBySlug(s[i])
    ensures StripNonWord(s) == s
    decreases |s|
  {
    if s != [] {
      StripNonWordKeepsAll(s[1..]);
    }
  }

  lemma {:induction false} StripNonWordDrops(s: string, k: int)
    requires 0 <= k < |s| && !KeptBySlug(s[k])
    ensures |StripNonWord(s)| < |s|
    decreases |s|
  {
    if k > 0 {
      StripNonWordDrops(s[1..], k - 1);
    }
  }

  /** The text after the leading spaces. */
  function DropSpaces(s: string): (r: string)
    ensures r == [] || r[0] != ' '
    ensures forall c :: c in r ==> c in s
    ensures s != [] && s[0] == ' ' ==> |r| < |s|
    decreases |s|
  {
    if s != [] && s[0] == ' ' then DropSpaces(s[1..]) else s
  }

  /** No `-` directly after another. */
  predicate NoDoubleHyphen(s: string)
  {
    forall i :: 0 <= i < |s| - 1 ==> !(s[i] == '-' && s[i + 1] == '-')
  }

  /** `replace(/ +/g, "-")`: each maximal run of spaces becomes one `-`. */
  function CollapseSpaces(s: string): (r: string)
    ensures ' ' !in r
    ensures forall c :: c in r ==> c == '-' || c in s
    ensures |r| <= |s|
    ensures r == [] <==> s == []
    ensures s != [] && s[0] != ' ' ==> r[0] == s[0]
    ensures '-' !in s ==> NoDoubleHyphen(r)
    decreases |s|
  {
    if s == [] then []
    else if s[0] == ' ' then
      var rest := CollapseSpaces(DropSpaces(s));
      assert ('-' !in s && rest != []) ==> rest[0] != '-';
      assert ("-" + rest)[1..] == rest;
      "-" + rest
    else
      var rest := CollapseSpaces(s[1..]);
      assert ([s[0]] + rest)[1..] == rest;
      [s[0]] + rest
  }

  /** The characters a generated slug can contain: `[a-z0-9_-]`. */
  predicate IsSlugChar(c: char)
  {
    'a' <= c <= 'z' || '0' <= c <= '9' || c == '_' || c == '-'
  }

  /** `generateSlug(name)`: lower-case, delete what is not a word character
      or a space, turn each run of spaces into `-`. */
  function GenerateSlug(name: string): (r: string)
    ensures forall c :: c in r ==> IsSlugChar(c)
    ensures ' ' !in r
    ensures NoDoubleHyphen(r)
    ensures |r| <= |name|
  {
    var lowered := LowerAll(name);
    var stripped := StripNonWord(lowered);
    forall c | c in stripped
      ensures c == ' ' || (IsSlugChar(c) && c != '-')
    {
      var i :| 0 <= i < |lowered| && lowered[i] == c;
    }
    CollapseSpaces(stripped)
  }

  /** The value of the generator: the lower-cased name, filtered down to
      word characters and spaces, with each run of spaces made one `-`. */
  lemma GenerateSlugValue(name: string)
    ensures GenerateSlug(name) == CollapseSpaces(Filter(LowerAll(name), KeptBySlug))
  {
    StripNonWordIsFilter(LowerAll(name));
  }

  lemma {:induction false} CollapseWithoutSpaces(s: string)
    requires ' ' !in s
    ensures CollapseSpaces(s) == s
    decreases |s|
  {
    if s != [] {
      CollapseWithoutSpaces(s[1..]);
    }
  }

  /** A word followed by a run of spaces: the run becomes one `-`. */
  lemma {:induction false} CollapseAfterWord(w: string, spaces: string, rest: string)
    requires ' ' !in w && spaces != [] && (forall i :: 0 <= i < |spaces| ==> spaces[i] == ' ')
    requires rest == [] || rest[0] != ' '
    ensures CollapseSpaces(w + spaces + rest) == w + "-" + CollapseSpaces(rest)
    decreases |w| + |spaces|
  {
    if w != [] {
      assert (w + spaces + rest)[1..] == w[1..] + spaces + rest;
      CollapseAfterWord(w[1..], spaces, rest);
    } else {
      assert w + spaces + rest == spaces + rest;
      DropSpacesRun(spaces, rest);
    }
  }

  lemma {:induction false} DropSpacesRun(spaces: string, rest: string)
    requires forall i :: 0 <= i < |spaces| ==> spaces[i] == ' '
    requires rest == [] || rest[0] != ' '
    ensures DropSpaces(spaces + rest) == rest
    decreases |spaces|
  {
    if spaces != [] {
      assert (spaces + rest)[1..] == spaces[1..] + rest;
      DropSpacesRun(spaces[1..], rest);
    } else {
      assert spaces + rest == rest;
    }
  }

  /** Hyphens typed in the name are deleted, not kept. */
  lemma HyphenIsDeleted()
    ensures GenerateSlug("a-b") == "ab"
  {
    assert LowerAll("a-b") == "a-b";
    assert StripNonWord("a-b") == "ab" by {
      assert "a-b"[1..] == "-b" && "-b"[1..] == "b";
      assert StripNonWord("b") == "b";
    }
    CollapseWithoutSpaces("ab");
  }

  /** Leading and trailing spaces are not trimmed. */
  lemma OuterSpacesBecomeHyphens()
    ensures GenerateSlug(" a ") == "-a-"
  {
    assert LowerAll(" a ") == " a ";
    StripNonWordKeepsAll(" a ");
    CollapseAfterWord("", " ", "a ");
    assert "" + " " + "a " == " a ";
    CollapseAfterWord("a", " ", "");
    assert "a" + " " + "" == "a ";
  }

  /** Applying the generator to its own output can change it again. */
  lemma NotIdempotent()
    ensures GenerateSlug(GenerateSlug("a b")) != GenerateSlug("a b")
  {
    assert LowerAll("a b") == "a b";
    StripNonWordKeepsAll("a b");
    CollapseAfterWord("a", " ", "b");
    assert "a" + " " + "b" == "a b";
    assert CollapseSpaces("b") == "b";
    assert GenerateSlug("a b") == "a-b";
    HyphenIsDeleted();
  }

  /** The names the generator leaves unchanged are exactly those made of
      `[a-z0-9_]`. */
  lemma FixedPoints(s: string)
    ensures GenerateSlug(s) == s <==> forall c :: c in s ==> IsSlugChar(c) && c != '-'
  {
    if forall c :: c in s ==> IsSlugChar(c) && c != '-' {
      assert forall i :: 0 <= i < |s| ==> IsSlugChar(s[i]) && s[i] != '-';
      LowerAllFixed(s);
      StripNonWordKeepsAll(s);
      CollapseWithoutSpaces(s);
    }
    if GenerateSlug(s) == s && '-' in s {
      var lowered := LowerAll(s);
      var k :| 0 <= k < |s| && s[k] == '-';
      assert lowered[k] == '-';
      StripNonWordDrops(lowered, k);
      assert false;
    }
  }

  /** A name holding a letter, digit or underscore gives a non-empty slug. */
  lemma WordCharGivesNonEmptySlug(name: string, i: int)
    requires 0 <= i < |name| && IsWordChar(name[i])
    ensures GenerateSlug(name) != ""
  {
    var lowered := LowerAll(name);
    assert IsWordChar(lowered[i]);
    assert lowered[i] in StripNonWord(lowered);
  }

  /** A name of punctuation alone gives the empty slug. */
  lemma PunctuationGivesEmptySlug()
    ensures GenerateSlug("!!!") == ""
  {
    assert LowerAll("!!!") == "!!!";
    assert StripNonWord("!!!") == "";
  }

  // ---------------------------------------------------------------------
  // The product form's name handler

  /** The product being edited, if the dialog was opened on one. */
  datatype EditedProduct = EditedProduct(name: string, slug: string)

  function PreviousName(editing: Option<EditedProduct>): string
  {
    match editing case Some(p) => p.name case None => ""
  }

  function PreviousSlug(editing: Option<EditedProduct>): string
  {
    match editing case Some(p) => p.slug case None => ""
  }

  /** The slug field after the name field changes to `name`, as written: it
      is regenerated only when empty, equal to the edited product's slug, or
      equal to the slug of the edited product's name. */
  function NextProductSlug(currentSlug: string, editing: Option<EditedProduct>, name: string): (r: string)
    ensures (currentSlug == "" || currentSlug == PreviousSlug(editing)
             || currentSlug == GenerateSlug(PreviousName(editing))) ==> r == GenerateSlug(name)
    ensures (currentSlug != "" && currentSlug != PreviousSlug(editing)
             && currentSlug != GenerateSlug(PreviousName(editing))) ==> r == currentSlug
  {
    if currentSlug == "" || currentSlug == PreviousSlug(editing) || currentSlug == GenerateSlug(PreviousName(editing))
    then GenerateSlug(name)
    else currentSlug
  }

  /** For a new product the slug follows only the first keystroke that gives
      it a non-empty value: afterwards no name change touches it. */
  lemma NewProductSlugFreezes(first: string, later: string)
    requires GenerateSlug(first) != ""
    ensures NextProductSlug(NextProductSlug("", None, first), None, later) == GenerateSlug(first)
  {
    assert GenerateSlug(PreviousName(None)) == "" by {
      assert LowerAll("") == "";
    }
  }

  /** Typing `a` then `ab` into a new product leaves the slug at `a`. */
  lemma NewProductSlugCounterexample()
    ensures NextProductSlug(NextProductSlug("", None, "a"), None, "ab") == "a" != GenerateSlug("ab")
  {
    assert LowerAll("a") == "a" && LowerAll("ab") == "ab";
    StripNonWordKeepsAll("a");
    StripNonWordKeepsAll("ab");
    CollapseWithoutSpaces("a");
    CollapseWithoutSpaces("ab");
    NewProductSlugFreezes("a", "ab");
  }

  /** The same rule, comparing with the slug of the name field's previous
      value: a slug that was generated keeps following the name, and a slug
      typed by hand is kept. */
  function NextProductSlugTracking(currentSlug: string, previousName: string, editing: Option<EditedProduct>,
                                   name: string): (r: string)
    ensures (currentSlug == "" || currentSlug == PreviousSlug(editing)
             || currentSlug == GenerateSlug(previousName)) ==> r == GenerateSlug(name)
    ensures (currentSlug != "" && currentSlug != PreviousSlug(editing)
             && currentSlug != GenerateSlug(previousName)) ==> r == currentSlug
  {
    if currentSlug == "" || currentSlug == PreviousSlug(editing) || currentSlug == GenerateSlug(previousName)
    then GenerateSlug(name)
    else currentSlug
  }

  /** Typing the names `names` one after another into the corrected form. */
  function TypeNames(slug: string, previousName: string, editing: Option<EditedProduct>,
                     names: seq<string>): string
    decreases |names|
  {
    if names == [] then slug
    else TypeNames(NextProductSlugTracking(slug, previousName, editing, names[0]), names[0], editing, names[1..])
  }

  /** With the correction, a generated slug stays the slug of the current
      name through any sequence of edits. */
  lemma {:induction false} TrackingFollowsName(previousName: string, editing: Option<EditedProduct>,
                                                names: seq<string>)
    requires names != []
    ensures TypeNames(GenerateSlug(previousName), previousName, editing, names) == GenerateSlug(names[|names| - 1])
    decreases |names|
  {
    var next := NextProductSlugTracking(GenerateSlug(previousName), previousName, editing, names[0]);
    assert next == GenerateSlug(names[0]);
    if |names| > 1 {
      TrackingFollowsName(names[0], editing, names[1..]);
      assert names[1..][|names[1..]| - 1] == names[|names| - 1];
    } else {
      assert names[1..] == [];
    }
  }

  /** The form's name and slug fields while the product dialog is open. */
  class ProductForm {
    var name: string
    var slug: string
    const editing: Option<EditedProduct>

    constructor Open(editing: Option<EditedProduct>)
      ensures this.editing == editing
      ensures name == PreviousName(editing) && slug == PreviousSlug(editing)
    {
      this.editing := editing;
      name := PreviousName(editing);
      slug := PreviousSlug(editing);
    }

    /** `handleProductNameChange`, as written. */
    method OnNameChange(newName: string)
      modifies this
      ensures name == newName
      ensures slug == NextProductSlug(old(slug), editing, newName)
    {
      var currentSlug := slug;
      name := newName;
      if currentSlug == "" || currentSlug == PreviousSlug(editing) || currentSlug == GenerateSlug(PreviousName(editing)) {
        slug := GenerateSlug(newName);
      }
    }

    /** The handler with the comparison made against the previous value of
        the name field. */
    method OnNameChangeTracking(newName: string)
      modifies this
      ensures name == newName
      ensures slug == NextProductSlugTracking(old(slug), old(name), editing, newName)
      ensures old(slug) == GenerateSlug(old(name)) ==> slug == GenerateSlug(name)
    {
      var currentSlug, previousName := slug, name;
      name := newName;
      if currentSlug == "" || currentSlug == PreviousSlug(editing) || currentSlug == GenerateSlug(previousName) {
        slug := GenerateSlug(newName);
      }
    }
  }

  // ---------------------------------------------------------------------
  // The category form's name handler

  /** `handleCategoryNameChange`: the slug is filled in only while empty. */
  function NextCategorySlug(currentSlug: string, name: string): (r: string)
    ensures currentSlug == "" ==> r == GenerateSlug(name)
    ensures currentSlug != "" ==> r == currentSlug
  {
    if currentSlug == "" then GenerateSlug(name) else currentSlug
  }

  /** The category dialog's fields, as `categoryForm.reset` leaves them when
      the dialog opens. */
  class CategoryForm {
    var name: string
    var slug: string
    var description: string
    var imageUrl: string

    constructor Open()
      ensures name == "" && slug == "" && description == "" && imageUrl == ""
    {
      name := "";
      slug := "";
      description := "";
      imageUrl := "";
    }

    method OnNameChange(newName: string)
      modifies this
      ensures name == newName && slug == NextCategorySlug(old(slug), newName)
      ensures description == old(description) && imageUrl == old(imageUrl)
    {
      name := newName;
      if slug == "" {
        slug := GenerateSlug(newName);
      }
    }
  }

  /** Once the category slug is non-empty, no later name change alters it. */
  lemma {:induction false} CategorySlugSticks(slug: string, names: seq<string>)
    requires slug != ""
    ensures TypeCategoryNames(slug, names) == slug
    decreases |names|
  {
    if names != [] {
      CategorySlugSticks(NextCategorySlug(slug, names[0]), names[1..]);
    }
  }

  function TypeCategoryNames(slug: string, names: seq<string>): string
    decreases |names|
  {
    if names == [] then slug else TypeCategoryNames(NextCategorySlug(slug, names[0]), names[1..])
  }

  // ---------------------------------------------------------------------
  // The schemas

  datatype ProductValues = ProductValues(name: string, price: int, description: string, imageUrl: string,
                                         slug: string, categoryId: string, sizes: Option<seq<string>>)

  /** The category form's values: every field is a text input, so each holds
      a string, `""` when left empty. */
  datatype CategoryValues = CategoryValues(name: string, slug: string, description: string, imageUrl: string)

  /** `z.string().url()` on `s`. The empty string is never a URL; on other
      text the validator's verdict is `verdict`, as URL parsing is not part
      of this model. */
  predicate UrlAccepted(s: string, verdict: bool)
  {
    s != "" && verdict
  }

  /** `productSchema`. */
  predicate ValidProduct(v: ProductValues, imageUrlValid: bool)
  {
    |v.name| >= 1 && v.price >= 1 && |v.description| >= 1 && UrlAccepted(v.imageUrl, imageUrlValid)
    && |v.slug| >= 1 && |v.categoryId| >= 1
  }

  /** `categorySchema` on what the form submits: `optional()` admits only an
      absent image, which the form never sends, so its string must be a URL. */
  predicate ValidCategory(v: CategoryValues, imageUrlValid: bool)
  {
    |v.name| >= 1 && |v.slug| >= 1 && UrlAccepted(v.imageUrl, imageUrlValid)
  }

  /** The schema with an empty image field read as no image. */
  predicate ValidCategoryEmptyImageAllowed(v: CategoryValues, imageUrlValid: bool)
  {
    |v.name| >= 1 && |v.slug| >= 1 && (v.imageUrl == "" || UrlAccepted(v.imageUrl, imageUrlValid))
  }

  const DefaultProductValues: ProductValues := ProductValues("", 0, "", "", "", "", Some(["S", "M", "L", "XL"]))

  /** The product form's default values are rejected, price 0 among them, and
      a slug generated from a name of punctuation alone is too. */
  lemma SchemaRejections(v: ProductValues, imageUrlValid: bool)
    requires v.slug == GenerateSlug("!!!")
    ensures !ValidProduct(DefaultProductValues, imageUrlValid)
    ensures !ValidProduct(v, imageUrlValid)
  {
    PunctuationGivesEmptySlug();
  }

  /** A category whose name has a word character, with the slug generated
      from that name and a URL the validator accepts, passes the schema. */
  lemma GeneratedCategorySlugAccepted(name: string, i: int, description: string, url: string)
    requires 0 <= i < |name| && IsWordChar(name[i])
    requires url != ""
    ensures ValidCategory(CategoryValues(name, NextCategorySlug("", name), description, url), true)
    ensures ValidCategoryEmptyImageAllowed(CategoryValues(name, NextCategorySlug("", name), description, url), true)
  {
    WordCharGivesNonEmptySlug(name, i);
  }

  /** Leaving the image field as the form opened it fails the schema as
      written, whatever the name, slug and validator say. */
  lemma EmptyCategoryImageRejected(name: string, slug: string, description: string, imageUrlValid: bool)
    ensures !ValidCategory(CategoryValues(name, slug, description, ""), imageUrlValid)
  {
  }

  /** With `""` read as no image, a new category named with a word character,
      its slug generated and its image field left empty passes. */
  lemma EmptyCategoryImageAccepted(name: string, i: int, description: string, imageUrlValid: bool)
    requires 0 <= i < |name| && IsWordChar(name[i])
    ensures ValidCategoryEmptyImageAllowed(CategoryValues(name, NextCategorySlug("", name), description, ""),
                                           imageUrlValid)
  {
    WordCharGivesNonEmptySlug(name, i);
  }
}
