/**
 The observable view-model store: the signed-in user's id, its categories and
 the UI locale, three actions that assign them and three getters that read
 them back. `StoreState`, `Action` and `Apply` state what each action does to
 the store as a value; the class `Store` is the mutable object, and each of
 its actions is proved to move its fields exactly as `Apply` says.
 */
module ViewModel {
  import opened Domain

  /** The three observable fields of the store, as one value. */
  datatype StoreState = StoreState(categories: seq<Category>, userId: string, lang: string)

  /** The three actions of the store. */
  datatype Action =
    | SetLoggedInUser(user: User)
    | ChangeCategories(categories: seq<Category>)
    | ChangeLang(lang: string)

  /** The state a freshly constructed store holds on a device whose locale
      is `locale`. */
  function Initial(locale: string): (s: StoreState)
    ensures s.categories == [] && s.userId == ""
    ensures s.lang == locale
  {
    StoreState([], "", locale)
  }

  /** The effect of one action: each action writes only the fields it names. */
  function Apply(s: StoreState, a: Action): (r: StoreState)
    ensures a.SetLoggedInUser? ==> r.userId == a.user.id && r.categories == a.user.categories
    ensures a.ChangeCategories? ==> r.categories == a.categories
    ensures a.ChangeLang? ==> r.lang == a.lang
    // frame: what each action leaves alone
    ensures !a.ChangeLang? ==> r.lang == s.lang
    ensures !a.SetLoggedInUser? ==> r.userId == s.userId
    ensures a.ChangeLang? ==> r.categories == s.categories
  {
    match a
    case SetLoggedInUser(u) => s.(userId := u.id, categories := u.categories)
    case ChangeCategories(cs) => s.(categories := cs)
    case ChangeLang(l) => s.(lang := l)
  }

  /** The state after performing `actions` in order, starting from `s`. */
  function Run(s: StoreState, actions: seq<Action>): StoreState
    decreases |actions|
  {
    if actions == [] then s else Run(Apply(s, actions[0]), actions[1..])
  }

  /** True of actions that write the category list. */
  predicate WritesCategories(a: Action) {
    a.SetLoggedInUser? || a.ChangeCategories?
  }

  /** Running two batches one after the other is running their concatenation. */
  lemma {:induction false} RunAppend(s: StoreState, xs: seq<Action>, ys: seq<Action>)
    ensures Run(s, xs + ys) == Run(Run(s, xs), ys)
    decreases |xs|
  {
    if xs == [] {
      assert xs + ys == ys;
    } else {
      assert (xs + ys)[1..] == xs[1..] + ys;
      RunAppend(Apply(s, xs[0]), xs[1..], ys);
    }
  }

  /** Actions that do not write the category list leave it as it was. */
  lemma {:induction false} CategoriesUntouched(s: StoreState, actions: seq<Action>)
    requires forall i :: 0 <= i < |actions| ==> !WritesCategories(actions[i])
    ensures Run(s, actions).categories == s.categories
    decreases |actions|
  {
    if actions != [] {
      CategoriesUntouched(Apply(s, actions[0]), actions[1..]);
    }
  }

  /** Categories are replaced wholesale, never merged: whatever came before,
      the list the store holds is the argument of the last action that wrote
      it, provided nothing after it wrote the list again. */
  lemma LastCategoriesWin(s: StoreState, before: seq<Action>, cs: seq<Category>, after: seq<Action>)
    requires forall i :: 0 <= i < |after| ==> !WritesCategories(after[i])
    ensures Run(s, before + [ChangeCategories(cs)] + after).categories == cs
  {
    RunAppend(s, before + [ChangeCategories(cs)], after);
    RunAppend(s, before, [ChangeCategories(cs)]);
    var mid := Run(s, before + [ChangeCategories(cs)]);
    assert mid.categories == cs;
    CategoriesUntouched(mid, after);
  }

  /** After any non-empty sequence of `changeCategories` calls alone, the
      store holds exactly the argument of the last one, and the user id and
      locale are those it started with. */
  lemma {:induction false} OnlyCategoryChanges(s: StoreState, actions: seq<Action>)
    requires actions != []
    requires forall i :: 0 <= i < |actions| ==> actions[i].ChangeCategories?
    ensures Run(s, actions).categories == actions[|actions| - 1].categories
    ensures Run(s, actions).userId == s.userId && Run(s, actions).lang == s.lang
    decreases |actions|
  {
    if |actions| > 1 {
      OnlyCategoryChanges(Apply(s, actions[0]), actions[1..]);
    }
  }

  /** Only `changeLang` moves the locale. */
  lemma {:induction false} LangOnlyByChangeLang(s: StoreState, actions: seq<Action>)
    requires forall i :: 0 <= i < |actions| ==> !actions[i].ChangeLang?
    ensures Run(s, actions).lang == s.lang
    decreases |actions|
  {
    if actions != [] {
      LangOnlyByChangeLang(Apply(s, actions[0]), actions[1..]);
    }
  }

  /** The store object. The locale the device reports at start-up is a
      constructor parameter. */
  class Store {
    var categories: seq<Category>
    var userId: string
    var lang: string

    /** The store's fields as one value. */
    function Snapshot(): (s: StoreState)
      reads this
      ensures s.categories == categories && s.userId == userId && s.lang == lang
    {
      StoreState(categories, userId, lang)
    }

    constructor (locale: string)
      ensures Snapshot() == Initial(locale)
    {
      categories := [];
      userId := "";
      lang := locale;
    }

    method SetLoggedInUser(user: User)
      modifies this
      ensures Snapshot() == Apply(old(Snapshot()), Action.SetLoggedInUser(user))
      ensures userId == user.id && categories == user.categories && lang == old(lang)
    {
      userId := user.id;
      categories := user.categories;
    }

    method ChangeCategories(cs: seq<Category>)
      modifies this
      ensures Snapshot() == Apply(old(Snapshot()), Action.ChangeCategories(cs))
      ensures categories == cs && userId == old(userId) && lang == old(lang)
    {
      categories := cs;
    }

    method ChangeLang(l: string)
      modifies this
      ensures Snapshot() == Apply(old(Snapshot()), Action.ChangeLang(l))
      ensures lang == l && categories == old(categories) && userId == old(userId)
    {
      lang := l;
    }

    /** Getter: the current category list. */
    function AllCategories(): (cs: seq<Category>)
      reads this
      ensures cs == Snapshot().categories
    {
      categories
    }

    /** Getter: the current user id. */
    function CurrentUserId(): (id: string)
      reads this
      ensures id == Snapshot().userId
    {
      userId
    }

    /** Getter: the current locale. */
    function CurrentLang(): (l: string)
      reads this
      ensures l == Snapshot().lang
    {
      lang
    }
  }

  /** Signing a user in and reading the categories back yields exactly that
      user's list, in the same order; the locale is still the device's. */
  method SignInThenRead(locale: string, user: User) returns (cs: seq<Category>, l: string)
    ensures cs == user.categories && l == locale
  {
    var store := new Store(locale);
    store.SetLoggedInUser(user);
    cs := store.AllCategories();
    l := store.CurrentLang();
  }
}
