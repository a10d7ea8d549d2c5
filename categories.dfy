/**
  The `v_categories` view: every category with its slug
  `LOWER(REPLACE(name, ' ', '-'))`. `LOWER` is modelled on the ASCII
  letters A to Z.
 */
module Categories {
  datatype Category = Category(id: int, name: string, description: string)

  datatype CategoryRow = CategoryRow(id: int, name: string, description: string, slug: string)

  function LowerChar(c: char): (d: char)
    ensures 'A' <= c <= 'Z' ==> d as int == c as int + 32
    ensures !('A' <= c <= 'Z') ==> d == c
  {
    if 'A' <= c <= 'Z' then (c as int + 32) as char else c
  }

  /** SQL `LOWER`, one character at a time. */
  function Lower(s: string): (r: string)
    ensures |r| == |s|
    ensures forall i :: 0 <= i < |s| ==> r[i] == LowerChar(s[i])
  {
    if s == [] then [] else Lower(s[..|s| - 1]) + [LowerChar(s[|s| - 1])]
  }

  /** SQL `REPLACE(s, from, to)` for one-character `from` and `to`. */
  function Replace(s: string, from: char, to: char): (r: string)
    ensures |r| == |s|
    ensures forall i :: 0 <= i < |s| ==> r[i] == if s[i] == from then to else s[i]
  {
    if s == [] then []
    else Replace(s[..|s| - 1], from, to) + [if s[|s| - 1] == from then to else s[|s| - 1]]
  }

  function Slug(name: string): string {
    Lower(Replace(name, ' ', '-'))
  }

  /** The view: one row per category, in table order. */
  function CategoriesView(categories: seq<Category>): (rows: seq<CategoryRow>)
    ensures |rows| == |categories|
    ensures forall k :: 0 <= k < |categories| ==>
      rows[k] == CategoryRow(categories[k].id, categories[k].name, categories[k].description, Slug(categories[k].name))
  {
    if categories == [] then []
    else
      var c := categories[|categories| - 1];
      CategoriesView(categories[..|categories| - 1]) + [CategoryRow(c.id, c.name, c.description, Slug(c.name))]
  }

  // Properties of the slug.

  /** The slug is the name, character by character: a space becomes '-', a capital its small letter. */
  lemma SlugAt(name: string)
    ensures |Slug(name)| == |name|
    ensures forall i :: 0 <= i < |name| ==> Slug(name)[i] == LowerChar(if name[i] == ' ' then '-' else name[i])
  {
  }

  /** A slug contains no space. */
  lemma SlugHasNoSpace(name: string)
    ensures forall i :: 0 <= i < |Slug(name)| ==> Slug(name)[i] != ' '
  {
    SlugAt(name);
  }

  /** A slug has no capital letter A to Z. */
  lemma SlugIsLowercase(name: string)
    ensures forall i :: 0 <= i < |Slug(name)| ==> !('A' <= Slug(name)[i] <= 'Z')
  {
    SlugAt(name);
  }

  /** Taking the slug of a slug changes nothing. */
  lemma SlugIdempotent(name: string)
    ensures Slug(Slug(name)) == Slug(name)
  {
    var s := Slug(name);
    SlugAt(name);
    SlugAt(s);
  }
}
