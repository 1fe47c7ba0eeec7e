// The admin tech-stack editor: a list of categories, each with a list of
// technologies, edited through field arrays and saved whole as the
// "techStack" section.
module TechStackForm {
  import opened Wrappers
  import opened JsString
  import opened Actions
  import opened Ui
  import Portfolio

  /** One technology row; `url` comes over from the document and has no input of its own. */
  datatype ItemField = ItemField(name: string, icon: string, url: Option<string>)

  datatype CategoryField = CategoryField(category: string, items: seq<ItemField>)

  /** `techItemSchema`; `isUrl` stands for zod's URL recogniser. */
  function ItemAccepted(item: ItemField, isUrl: string -> bool): (ok: bool)
    ensures ok ==> item.name != []
    ensures ok ==> isUrl(item.icon)
  {
    Utf16Length(item.name) >= 1 && isUrl(item.icon)
  }

  /** `categorySchema`. */
  function CategoryAccepted(c: CategoryField, isUrl: string -> bool): (ok: bool)
    ensures ok ==> c.category != []
    ensures c.items == [] ==> (ok <==> c.category != [])
  {
    && Utf16Length(c.category) >= 1
    && forall i :: 0 <= i < |c.items| ==> ItemAccepted(c.items[i], isUrl)
  }

  /** `formSchema`. */
  function Accepts(stack: seq<CategoryField>, isUrl: string -> bool): (ok: bool)
    ensures ok ==> forall i :: 0 <= i < |stack| ==> stack[i].category != []
    ensures stack == [] ==> ok
  {
    forall i :: 0 <= i < |stack| ==> CategoryAccepted(stack[i], isUrl)
  }

  /** `defaultValues.techStack`: the document's categories, each item keeping its `url`. */
  function Defaults(cats: seq<Portfolio.TechCategory>): (stack: seq<CategoryField>)
    ensures |stack| == |cats|
  {
    seq(|cats|, i requires 0 <= i < |cats| =>
      CategoryField(cats[i].category,
        seq(|cats[i].items|, j requires 0 <= j < |cats[i].items| =>
          ItemField(cats[i].items[j].name, cats[i].items[j].icon, Some(cats[i].items[j].url)))))
  }

  /** A document whose category and technology names are non-empty and whose icons are URLs opens a form that can be saved unchanged. */
  lemma {:induction false} DefaultsAccepted(cats: seq<Portfolio.TechCategory>, isUrl: string -> bool)
    requires forall i :: 0 <= i < |cats| ==> cats[i].category != []
    requires forall i, j :: 0 <= i < |cats| && 0 <= j < |cats[i].items| ==>
               cats[i].items[j].name != [] && isUrl(cats[i].items[j].icon)
    ensures Accepts(Defaults(cats), isUrl)
  {
    var stack := Defaults(cats);
    forall i | 0 <= i < |stack|
      ensures CategoryAccepted(stack[i], isUrl)
    {
      forall j | 0 <= j < |stack[i].items|
        ensures ItemAccepted(stack[i].items[j], isUrl)
      {
        assert stack[i].items[j].name == cats[i].items[j].name;
      }
    }
  }

  /** What zod passes to `onSubmit`: the same categories and items with the unknown key `url` stripped. */
  function Parse(stack: seq<CategoryField>): (r: seq<CategoryValues>)
    ensures |r| == |stack|
  {
    seq(|stack|, i requires 0 <= i < |stack| =>
      CategoryValues(stack[i].category,
        seq(|stack[i].items|, j requires 0 <= j < |stack[i].items| =>
          TechItemValues(stack[i].items[j].name, stack[i].items[j].icon))))
  }

  /** The saved section keeps every category name, item name and icon, in order. */
  lemma {:induction false} ParseKeepsNamesAndIcons(stack: seq<CategoryField>, i: nat, j: nat)
    requires i < |stack| && j < |stack[i].items|
    ensures var r := Parse(stack);
            && r[i].category == stack[i].category
            && |r[i].items| == |stack[i].items|
            && r[i].items[j].name == stack[i].items[j].name
            && r[i].items[j].icon == stack[i].items[j].icon
  {
  }

  /** The item URLs never reach the server: changing one leaves the saved section as it was. */
  lemma {:induction false} ParseIgnoresUrl(stack: seq<CategoryField>, i: nat, j: nat, url: Option<string>)
    requires i < |stack| && j < |stack[i].items|
    ensures Parse(stack[i := stack[i].(items := stack[i].items[j := stack[i].items[j].(url := url)])]) == Parse(stack)
  {
    var edited := stack[i := stack[i].(items := stack[i].items[j := stack[i].items[j].(url := url)])];
    var a, b := Parse(edited), Parse(stack);
    forall k | 0 <= k < |stack|
      ensures a[k] == b[k]
    {
      if k == i {
        assert a[k].items == b[k].items;
      }
    }
  }

  /** A new empty category, `{ category: "", items: [] }`. */
  const NewCategory := CategoryField("", [])

  /** A new empty technology, `{ name: "", icon: "" }`: it has no `url`. */
  const NewItem := ItemField("", "", None)

  /** `remove(index)` on a field array: the entry at `index` goes and the later ones move down by one. */
  function RemoveAt<T>(s: seq<T>, index: nat): (r: seq<T>)
    requires index < |s|
    ensures |r| == |s| - 1
    ensures forall k :: 0 <= k < index ==> r[k] == s[k]
    ensures forall k :: index <= k < |r| ==> r[k] == s[k + 1]
  {
    s[..index] + s[index + 1..]
  }

  /** Removing the entry just appended gives back the list as it was. */
  lemma {:induction false} RemoveAppended<T>(s: seq<T>, x: T)
    ensures RemoveAt(s + [x], |s|) == s
  {
    assert (s + [x])[..|s|] == s;
  }

  /** The stack with the items of category `c` replaced. */
  function WithItems(stack: seq<CategoryField>, c: nat, items: seq<ItemField>): seq<CategoryField>
    requires c < |stack|
  {
    stack[c := stack[c].(items := items)]
  }

  /** An appended category has an empty name, so the form cannot be saved until it is named. */
  lemma {:induction false} AppendedCategoryBlocksSave(stack: seq<CategoryField>, isUrl: string -> bool)
    ensures !Accepts(stack + [NewCategory], isUrl)
  {
    assert !CategoryAccepted((stack + [NewCategory])[|stack|], isUrl);
  }

  /** An appended technology has an empty name, so the form cannot be saved until it is filled in. */
  lemma {:induction false} AppendedItemBlocksSave(stack: seq<CategoryField>, c: nat, isUrl: string -> bool)
    requires c < |stack|
    ensures !Accepts(WithItems(stack, c, stack[c].items + [NewItem]), isUrl)
  {
    var edited := WithItems(stack, c, stack[c].items + [NewItem]);
    assert !ItemAccepted(edited[c].items[|stack[c].items|], isUrl);
  }

  /** Typing a name into the category just appended to a form that could be saved makes it savable again. */
  lemma {:induction false} NamedCategoryUnblocksSave(stack: seq<CategoryField>, name: string, isUrl: string -> bool)
    requires Accepts(stack, isUrl) && name != []
    ensures Accepts((stack + [NewCategory])[|stack| := NewCategory.(category := name)], isUrl)
  {
    var edited := (stack + [NewCategory])[|stack| := NewCategory.(category := name)];
    forall k | 0 <= k < |edited|
      ensures CategoryAccepted(edited[k], isUrl)
    {
      if k < |stack| {
        assert edited[k] == stack[k];
      } else {
        assert edited[k] == CategoryField(name, []);
      }
    }
  }

  /** Filling in a name and a URL icon for the technology just appended to a form that could be saved makes it savable again. */
  lemma {:induction false} FilledItemUnblocksSave(stack: seq<CategoryField>, c: nat, name: string, icon: string, isUrl: string -> bool)
    requires c < |stack| && Accepts(stack, isUrl) && name != [] && isUrl(icon)
    ensures Accepts(WithItems(stack, c, stack[c].items + [NewItem.(name := name, icon := icon)]), isUrl)
  {
    var edited := WithItems(stack, c, stack[c].items + [NewItem.(name := name, icon := icon)]);
    assert CategoryAccepted(stack[c], isUrl);
    var items := edited[c].items;
    forall k | 0 <= k < |items|
      ensures ItemAccepted(items[k], isUrl)
    {
      if k < |stack[c].items| {
        assert items[k] == stack[c].items[k];
      }
    }
    assert CategoryAccepted(edited[c], isUrl);
  }

  /** Removing a category from a form that could be saved leaves one that still can. */
  lemma {:induction false} RemoveCategoryKeepsAccepted(stack: seq<CategoryField>, c: nat, isUrl: string -> bool)
    requires c < |stack| && Accepts(stack, isUrl)
    ensures Accepts(RemoveAt(stack, c), isUrl)
  {
    var r := RemoveAt(stack, c);
    forall k | 0 <= k < |r|
      ensures CategoryAccepted(r[k], isUrl)
    {
      if k >= c {
        assert r[k] == stack[k + 1];
      }
    }
  }

  /** Removing a technology from a form that could be saved leaves one that still can. */
  lemma {:induction false} RemoveItemKeepsAccepted(stack: seq<CategoryField>, c: nat, i: nat, isUrl: string -> bool)
    requires c < |stack| && i < |stack[c].items| && Accepts(stack, isUrl)
    ensures Accepts(WithItems(stack, c, RemoveAt(stack[c].items, i)), isUrl)
  {
    var edited := WithItems(stack, c, RemoveAt(stack[c].items, i));
    assert CategoryAccepted(stack[c], isUrl);
    var items := edited[c].items;
    forall k | 0 <= k < |items|
      ensures ItemAccepted(items[k], isUrl)
    {
      if k >= i {
        assert items[k] == stack[c].items[k + 1];
      }
    }
    assert CategoryAccepted(edited[c], isUrl);
  }

  /**
   * React requires a component to call the same hooks on every render; a
   * render that calls a different number throws. `base` counts the hooks
   * called before the per-category loop.
   */
  function RenderAsWritten(base: nat, previousHooks: nat, categories: nat): (hooks: Option<nat>)
  {
    if base + categories == previousHooks then Some(previousHooks) else None
  }

  /** One `useFieldArray` per category inside `categories.map`: adding or removing a category changes the hook count and the next render throws. */
  lemma CategoryEditBreaksRenderAsWritten(base: nat, n: nat, m: nat)
    requires n != m
    ensures RenderAsWritten(base, base + n, m).None?
  {
  }

  /** The buttons of the view: the stack after "Add Category" no longer has the category count of the render before, so the next render throws. */
  lemma {:induction false} AppendCategoryBreaksRenderAsWritten(base: nat, stack: seq<CategoryField>)
    ensures RenderAsWritten(base, base + |stack|, |stack + [NewCategory]|).None?
  {
    CategoryEditBreaksRenderAsWritten(base, |stack|, |stack + [NewCategory]|);
  }

  /** Likewise after a category's delete button. */
  lemma {:induction false} RemoveCategoryBreaksRenderAsWritten(base: nat, stack: seq<CategoryField>, c: nat)
    requires c < |stack|
    ensures RenderAsWritten(base, base + |stack|, |RemoveAt(stack, c)|).None?
  {
    CategoryEditBreaksRenderAsWritten(base, |stack|, |RemoveAt(stack, c)|);
  }

  /** The items field array owned by a child component per category: this component's hook count no longer depends on the category count. */
  function Render(base: nat, previousHooks: nat, categories: nat): (hooks: Option<nat>)
  {
    if base == previousHooks then Some(previousHooks) else None
  }

  /** With the per-category field arrays moved into a child component, any number of category edits renders. */
  lemma CategoryEditRenders(base: nat, n: nat, m: nat)
    ensures Render(base, base, n) == Render(base, base, m) == Some(base)
  {
  }

  /** The corrected render goes through after either category button. */
  lemma {:induction false} CategoryButtonsRender(base: nat, stack: seq<CategoryField>, c: nat)
    requires c < |stack|
    ensures Render(base, base, |stack + [NewCategory]|) == Some(base)
    ensures Render(base, base, |RemoveAt(stack, c)|) == Some(base)
  {
    CategoryEditRenders(base, |stack + [NewCategory]|, |RemoveAt(stack, c)|);
  }

  const UpdatedToast := Toast("Tech stack updated", "Your tech stack has been updated successfully.", false)
  const FailedToast := Toast("Something went wrong.", "Your tech stack couldn't be updated. Please try again.", true)

  /** `TechStackForm`'s state: the submit flag, the field-array contents, and its steps. */
  class TechStackFormView {
    var isSubmitting: bool
    var techStack: seq<CategoryField>
    var steps: seq<Step>

    constructor(data: Portfolio.PortfolioData)
      ensures !isSubmitting && techStack == Defaults(data.techStack) && steps == []
    {
      isSubmitting := false;
      techStack := Defaults(data.techStack);
      steps := [];
    }

    /** The "Add Category" button. */
    method AppendCategory()
      modifies this
      ensures techStack == old(techStack) + [NewCategory]
      ensures isSubmitting == old(isSubmitting) && steps == old(steps)
    {
      techStack := techStack + [NewCategory];
    }

    /** A category's delete button. */
    method RemoveCategory(c: nat)
      requires c < |techStack|
      modifies this
      ensures techStack == RemoveAt(old(techStack), c)
      ensures isSubmitting == old(isSubmitting) && steps == old(steps)
    {
      techStack := techStack[..c] + techStack[c + 1..];
    }

    /** Typing into a category's name input. */
    method SetCategoryName(c: nat, name: string)
      requires c < |techStack|
      modifies this
      ensures techStack == old(techStack)[c := old(techStack)[c].(category := name)]
      ensures isSubmitting == old(isSubmitting) && steps == old(steps)
    {
      techStack := techStack[c := techStack[c].(category := name)];
    }

    /** Typing into a technology's name input. */
    method SetItemName(c: nat, i: nat, name: string)
      requires c < |techStack| && i < |techStack[c].items|
      modifies this
      ensures techStack == WithItems(old(techStack), c, old(techStack)[c].items[i := old(techStack)[c].items[i].(name := name)])
      ensures isSubmitting == old(isSubmitting) && steps == old(steps)
    {
      var items := techStack[c].items;
      techStack := techStack[c := techStack[c].(items := items[i := items[i].(name := name)])];
    }

    /** Typing into a technology's icon URL input. */
    method SetItemIcon(c: nat, i: nat, icon: string)
      requires c < |techStack| && i < |techStack[c].items|
      modifies this
      ensures techStack == WithItems(old(techStack), c, old(techStack)[c].items[i := old(techStack)[c].items[i].(icon := icon)])
      ensures isSubmitting == old(isSubmitting) && steps == old(steps)
    {
      var items := techStack[c].items;
      techStack := techStack[c := techStack[c].(items := items[i := items[i].(icon := icon)])];
    }

    /** A category's "Add Technology" button. */
    method AppendTechItem(c: nat)
      requires c < |techStack|
      modifies this
      ensures techStack == WithItems(old(techStack), c, old(techStack)[c].items + [NewItem])
      ensures isSubmitting == old(isSubmitting) && steps == old(steps)
    {
      techStack := techStack[c := techStack[c].(items := techStack[c].items + [NewItem])];
    }

    /** A technology's delete button. */
    method RemoveTechItem(c: nat, i: nat)
      requires c < |techStack| && i < |techStack[c].items|
      modifies this
      ensures techStack == WithItems(old(techStack), c, RemoveAt(old(techStack)[c].items, i))
      ensures isSubmitting == old(isSubmitting) && steps == old(steps)
    {
      var items := techStack[c].items;
      techStack := techStack[c := techStack[c].(items := items[..i] + items[i + 1..])];
    }

    /**
     * `form.handleSubmit(onSubmit)`: a stack the schema refuses changes nothing;
     * otherwise section "techStack" is updated with the parsed stack and the
     * flag is cleared on success and failure alike.
     */
    method HandleSubmit(server: Server, session: Option<Session>, isUrl: string -> bool)
      modifies this, server
      ensures techStack == old(techStack)
      ensures !Accepts(old(techStack), isUrl) ==>
                && isSubmitting == old(isSubmitting) && steps == old(steps)
                && server.log == old(server.log) && server.revalidated == old(server.revalidated)
      ensures Accepts(old(techStack), isUrl) ==>
                var call := UpdatePortfolioSection("techStack", TechStackSection(Parse(old(techStack))));
                var o := Perform(call, session);
                && server.log == old(server.log) + o.logged
                && server.revalidated == old(server.revalidated) + o.revalidated
                && !isSubmitting
                && steps == old(steps) + [SubmittingSet(true), Called(call),
                                          Toasted(if o.result.Success? then UpdatedToast else FailedToast),
                                          SubmittingSet(false)]
    {
      if !Accepts(techStack, isUrl) {
        return;
      }
      isSubmitting := true;
      var data := TechStackSection(Parse(techStack));
      var r := server.UpdatePortfolioSection(session, "techStack", data);
      if r.Success? {
        steps := steps + [SubmittingSet(true), Called(UpdatePortfolioSection("techStack", data)), Toasted(UpdatedToast)];
      } else {
        steps := steps + [SubmittingSet(true), Called(UpdatePortfolioSection("techStack", data)), Toasted(FailedToast)];
      }
      isSubmitting := false;
      steps := steps + [SubmittingSet(false)];
    }
  }
}
