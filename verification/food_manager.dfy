/**
 * The food catalogue screen (components/FoodManager.tsx): case-insensitive
 * search, adding and deleting catalogue items, and logging a portion of a
 * selected food.
 */
module FoodManager {
  import opened JsMath
  import opened JsArray
  import opened JsString
  import opened Types
  import opened App

  /** A catalogue item matches when its lower-cased name contains `needle`. */
  function Matches(needle: string): FoodItem -> bool
  {
    (f: FoodItem) => Includes(ToLowerCase(f.name), needle)
  }

  /** The catalogue items shown for the search text, in catalogue order. */
  function FilteredFood(db: seq<FoodItem>, search: string): (r: seq<FoodItem>)
    ensures |r| <= |db|
    ensures forall f :: f in r <==> f in db && Includes(ToLowerCase(f.name), ToLowerCase(search))
  {
    Filter(db, Matches(ToLowerCase(search)))
  }

  /** The search keeps catalogue order: it distributes over concatenation, item by item. */
  lemma FilteredFoodKeepsOrder(a: seq<FoodItem>, b: seq<FoodItem>, f: FoodItem, search: string)
    ensures FilteredFood(a + b, search) == FilteredFood(a, search) + FilteredFood(b, search)
    ensures FilteredFood([f], search) == if Includes(ToLowerCase(f.name), ToLowerCase(search)) then [f] else []
  {
    FilterConcat(a, b, Matches(ToLowerCase(search)));
    assert [f][1..] == [];
  }

  /** An empty search shows the whole catalogue, in order. */
  lemma EmptySearchShowsAll(db: seq<FoodItem>)
    ensures FilteredFood(db, "") == db
  {
    forall i | 0 <= i < |db| ensures Matches(ToLowerCase(""))(db[i]) {
      IncludesEmpty(ToLowerCase(db[i].name));
    }
    FilterAll(db, Matches(ToLowerCase("")));
  }

  /** The search ignores (ASCII) case: searching a text and its lower-case form shows the same list. */
  lemma SearchIgnoresCase(db: seq<FoodItem>, search: string)
    ensures FilteredFood(db, ToLowerCase(search)) == FilteredFood(db, search)
  {
    ToLowerCaseIdempotent(search);
  }

  /** A shown item's lower-cased name holds the lower-cased search text at some index. */
  lemma ShownItemsContainSearch(db: seq<FoodItem>, search: string, f: FoodItem)
    requires f in FilteredFood(db, search)
    ensures exists i :: OccursAt(ToLowerCase(f.name), ToLowerCase(search), i)
  {
    IncludesAt(ToLowerCase(f.name), ToLowerCase(search));
  }

  /**
   * The add-food form. A numeric field is `None` when its text did not parse
   * as a number.
   */
  datatype NewFoodForm = NewFoodForm(
    name: string, calories: Option<real>, protein: Option<real>, fat: Option<real>, carbs: Option<real>)

  /** The form as it starts and as it is reset after a save. */
  const BlankForm := NewFoodForm("", Some(0.0), Some(0.0), Some(0.0), Some(0.0))

  /** The catalogue item a save creates: no icon, and 0 for every field that is not a number. */
  function NewFoodItem(form: NewFoodForm, id: string): (f: FoodItem)
    ensures f.id == id && f.name == form.name && f.icon == ""
    ensures f.calories == OrZero(form.calories) && f.protein == OrZero(form.protein)
    ensures f.fat == OrZero(form.fat) && f.carbs == OrZero(form.carbs)
  {
    FoodItem(id, form.name, "", OrZero(form.calories), OrZero(form.protein),
             OrZero(form.fat), OrZero(form.carbs))
  }

  /** The item does not carry `id`. */
  function FoodIdIsNot(id: string): FoodItem -> bool
  {
    (f: FoodItem) => f.id != id
  }

  /** The catalogue without the items carrying `id`. */
  function FoodsWithoutId(db: seq<FoodItem>, id: string): (r: seq<FoodItem>)
    ensures forall f :: f in r <==> f in db && f.id != id
  {
    Filter(db, FoodIdIsNot(id))
  }

  /** Deleting works item by item and keeps the catalogue order. */
  lemma DeleteFoodKeepsOrder(a: seq<FoodItem>, b: seq<FoodItem>, f: FoodItem, id: string)
    ensures FoodsWithoutId(a + b, id) == FoodsWithoutId(a, id) + FoodsWithoutId(b, id)
    ensures FoodsWithoutId([f], id) == if f.id == id then [] else [f]
  {
    FilterConcat(a, b, FoodIdIsNot(id));
    assert [f][1..] == [];
  }

  /** The screen's own state. */
  class FoodManagerView {
    var search: string
    var showAddForm: bool
    var selectedFood: Option<FoodItem>
    var logWeight: string
    var newFood: NewFoodForm

    constructor ()
      ensures search == "" && !showAddForm && selectedFood == None
      ensures logWeight == "100" && newFood == BlankForm
    {
      search := "";
      showAddForm := false;
      selectedFood := None;
      logWeight := "100";
      newFood := BlankForm;
    }

    /**
     * `handleAddFood`: a form without a name saves nothing; otherwise the new item
     * is appended to the catalogue, the form is reset and closed.
     */
    method AddFood(app: Session, id: string)
      modifies this, app
      ensures old(newFood.name) == "" ==>
        app.foodDb == old(app.foodDb) && newFood == old(newFood) && showAddForm == old(showAddForm)
      ensures old(newFood.name) != "" ==>
        && app.foodDb == old(app.foodDb) + [NewFoodItem(old(newFood), id)]
        && newFood == BlankForm && !showAddForm
      ensures search == old(search) && selectedFood == old(selectedFood) && logWeight == old(logWeight)
      ensures app.profile == old(app.profile) && app.goals == old(app.goals)
      ensures app.logs == old(app.logs) && app.exerciseLogs == old(app.exerciseLogs)
    {
      if newFood.name == "" {
        return;
      }
      app.foodDb := app.foodDb + [NewFoodItem(newFood, id)];
      newFood := BlankForm;
      showAddForm := false;
    }

    /** `deleteFood`: when the user confirms, every item carrying `id` leaves the catalogue. */
    method DeleteFood(app: Session, id: string, confirmed: bool)
      modifies app
      ensures app.foodDb == (if confirmed then FoodsWithoutId(old(app.foodDb), id) else old(app.foodDb))
      ensures app.profile == old(app.profile) && app.goals == old(app.goals)
      ensures app.logs == old(app.logs) && app.exerciseLogs == old(app.exerciseLogs)
    {
      if confirmed {
        app.foodDb := FoodsWithoutId(app.foodDb, id);
      }
    }

    /**
     * `handleLog`: with a food selected and a weight typed, the portion is logged
     * through the session and the selection is cleared; otherwise nothing happens.
     * `parseFloat` stands for the parse of the weight text.
     */
    method HandleLog(app: Session, parseFloat: string -> real, id: string, timestamp: int,
                     prune: seq<DailyLogEntry> -> seq<DailyLogEntry>)
      modifies this, app
      ensures old(selectedFood).Some? && old(logWeight) != "" ==>
        && app.logs == prune([NewLogEntry(old(selectedFood).value, parseFloat(old(logWeight)), id, timestamp)]
                             + old(app.logs))
        && selectedFood == None
      ensures !(old(selectedFood).Some? && old(logWeight) != "") ==>
        app.logs == old(app.logs) && selectedFood == old(selectedFood)
      ensures search == old(search) && showAddForm == old(showAddForm)
      ensures logWeight == old(logWeight) && newFood == old(newFood)
      ensures app.profile == old(app.profile) && app.goals == old(app.goals)
      ensures app.foodDb == old(app.foodDb) && app.exerciseLogs == old(app.exerciseLogs)
    {
      if selectedFood.Some? && logWeight != "" {
        app.AddLog(selectedFood.value, parseFloat(logWeight), id, timestamp, prune);
        selectedFood := None;
      }
    }
  }
}
