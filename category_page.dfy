/** src/pages/category.tsx: the category page accepts only the three known
    category names and shows the name with its first letter in upper case. */
module CategoryPage {
  import opened Options

  /** String.prototype.toUpperCase on one character, for ASCII letters */
  function ToUpper(c: char): (u: char)
    ensures 'a' <= c <= 'z' ==> 'A' <= u <= 'Z' && u as int == c as int - 32
    ensures !('a' <= c <= 'z') ==> u == c
  {
    if 'a' <= c <= 'z' then (c as int - 32) as char else c
  }

  /** capitalize(str) */
  function Capitalize(s: string): string {
    if |s| == 0 then "" else [ToUpper(s[0])] + s[1..]
  }

  /** The empty string stays empty; otherwise only the first character is
      upper-cased, the rest and the length are kept */
  lemma CapitalizeShape(s: string)
    ensures |Capitalize(s)| == |s|
    ensures s != [] ==> Capitalize(s)[0] == ToUpper(s[0]) && Capitalize(s)[1..] == s[1..]
    ensures s == [] ==> Capitalize(s) == ""
  {
  }

  /** `const categories = ["strings", "winds", "percussion"]` */
  const KnownCategories: seq<string> := ["strings", "winds", "percussion"]

  /** The route gave a non-empty category name that is one of the known ones */
  predicate CategoryExists(categoryName: Option<string>) {
    categoryName.Some? && categoryName.value != "" && categoryName.value in KnownCategories
  }

  lemma CategoryExistsIff(categoryName: Option<string>)
    ensures CategoryExists(categoryName) <==>
      categoryName == Some("strings") || categoryName == Some("winds") || categoryName == Some("percussion")
  {
  }

  /** What the page renders */
  datatype View = Heading(text: string) | NotFound

  /** The page component: its state and the effect run once on mount */
  class CategoryPageState {
    var name: string
    var categoryExists: bool

    constructor ()
      ensures name == "" && categoryExists
    {
      name := "";
      categoryExists := true;
    }

    /** The mount effect: set the display name of a known category, or mark
        the page as not found */
    method RunEffect(categoryName: Option<string>)
      modifies this
      ensures CategoryExists(categoryName) ==> name == Capitalize(categoryName.value) && categoryExists == old(categoryExists)
      ensures !CategoryExists(categoryName) ==> !categoryExists && name == old(name)
    {
      if categoryName.Some? && categoryName.value != "" && categoryName.value in KnownCategories {
        name := Capitalize(categoryName.value);
      } else {
        categoryExists := false;
      }
    }

    function Render(): View
      reads this
    {
      if categoryExists then Heading("Category: " + name) else NotFound
    }
  }

  /** Mounting the page for "strings" shows "Category: Strings"; any name
      other than the three known ones shows the not-found page */
  method MountCategoryPage(categoryName: Option<string>) returns (view: View)
    ensures CategoryExists(categoryName) ==> view == Heading("Category: " + Capitalize(categoryName.value))
    ensures !CategoryExists(categoryName) ==> view == NotFound
    ensures categoryName == Some("strings") ==> view == Heading("Category: Strings")
  {
    var page := new CategoryPageState();
    page.RunEffect(categoryName);
    view := page.Render();
  }
}
