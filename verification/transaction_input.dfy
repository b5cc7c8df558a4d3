/**
 * The transaction entry form (ViewModels/TransactionInputViewModel.cs):
 * the income/expense switch, the project and category choices, validation,
 * saving and resetting the form.
 */
module TransactionInput {
  import opened Wrappers
  import opened Seqs
  import opened Text
  import opened NexusModels
  import opened DataStore

  /** What pressing "add" did: the transaction saved, or the message the form showed instead. */
  datatype Submission = Saved(transaction: Transaction) | Rejected(message: string)

  /** The category types offered in each mode. */
  function KindFor(isIncome: bool): string
  {
    if isIncome then "Income" else "Expense"
  }

  /** `Categories`: the names of the categories of the current mode's type, in store order. */
  function CategoryChoices(categories: seq<Category>, isIncome: bool): (r: seq<string>)
    ensures |r| <= |categories|
  {
    if categories == [] then []
    else
      var rest := CategoryChoices(categories[1..], isIncome);
      if categories[0].kind == KindFor(isIncome) then [categories[0].name] + rest else rest
  }

  /**
   * Every name offered is that of a category of the mode's type, and every
   * category of that type has its name offered.
   */
  lemma {:induction false} ChoicesMatchKind(categories: seq<Category>, isIncome: bool)
    ensures forall name :: name in CategoryChoices(categories, isIncome) ==>
      exists c :: c in categories && c.kind == KindFor(isIncome) && c.name == name
    ensures forall c :: c in categories && c.kind == KindFor(isIncome) ==> c.name in CategoryChoices(categories, isIncome)
  {
    if categories != [] {
      ChoicesMatchKind(categories[1..], isIncome);
      assert forall d :: d in categories[1..] ==> d in categories;
      assert forall d :: d in categories ==> d == categories[0] || d in categories[1..];
    }
  }

  /** With the default categories the income mode offers the two income ones, "Income" and "Salary". */
  lemma DefaultIncomeChoices()
    ensures CategoryChoices(DefaultCategories(), true) == ["Income", "Salary"]
  {
  }

  /** With the default categories the expense mode offers the other four, in store order. */
  lemma DefaultExpenseChoices()
    ensures CategoryChoices(DefaultCategories(), false) == ["Infrastructure", "Food", "Rent", "Transport"]
  {
    var cs := DefaultCategories();
    calc {
      CategoryChoices(cs, false);
      CategoryChoices(cs[2..], false);
      ["Infrastructure", "Food"] + CategoryChoices(cs[4..], false);
      ["Infrastructure", "Food", "Rent", "Transport"];
    }
  }

  /** The form's checks, in order: a description, a positive amount, a category. */
  function Validate(description: string, amount: real, category: Option<string>): (r: Option<string>)
    ensures r.None? <==> !IsBlank(description) && amount > 0.0 && category.Some? && !IsBlank(category.value)
    ensures IsBlank(description) ==> r == Some("Description is required!")
    ensures !IsBlank(description) && amount <= 0.0 ==> r == Some("Amount must be greater than zero!")
    ensures !IsBlank(description) && amount > 0.0 && (category.None? || IsBlank(category.value)) ==>
      r == Some("Category is required!")
  {
    if IsBlank(description) then Some("Description is required!")
    else if amount <= 0.0 then Some("Amount must be greater than zero!")
    else if category.None? || IsBlank(category.value) then Some("Category is required!")
    else None
  }

  /** The transaction a valid form stores: its fields, the project defaulting to "Personal". */
  function FormTransaction(description: string, amount: real, date: int, category: string,
                           project: Option<string>, isIncome: bool): (t: Transaction)
    ensures t.description == description && t.amount == amount && t.date == date
    ensures t.category == category && t.isIncome == isIncome
    ensures t.project == if project.Some? then project.value else "Personal"
  {
    Transaction(description, amount, date, category, if project.Some? then project.value else "Personal", isIncome)
  }

  function ProjectNames(projects: seq<Project>): (r: seq<string>)
    ensures |r| == |projects| && forall k :: 0 <= k < |r| ==> r[k] == projects[k].name
  {
    seq(|projects|, k requires 0 <= k < |projects| => projects[k].name)
  }

  class TransactionInputView {
    var isIncome: bool
    var description: string
    var amount: real
    var transactionDate: int
    var selectedProject: Option<string>
    var selectedCategory: Option<string>
    var notes: string
    var projects: seq<string>
    var categories: seq<string>

    /** A fresh form in expense mode, dated `now`, loaded from the store. */
    constructor (service: DataService, now: int)
      ensures !isIncome && description == "" && amount == 0.0 && transactionDate == now && notes == ""
      ensures projects == ProjectNames(service.data.projects)
      ensures selectedProject == if |projects| > 0 then Some(projects[0]) else None
      ensures categories == CategoryChoices(service.data.categories, false)
      ensures selectedCategory == if |categories| > 0 then Some(categories[0]) else None
    {
      isIncome := false;
      description := "";
      amount := 0.0;
      transactionDate := now;
      selectedProject := None;
      selectedCategory := None;
      notes := "";
      new;
      LoadData(service);
    }

    /** `LoadCategories`: the current mode's categories, the first selected when there is one. */
    method LoadCategories(service: DataService)
      modifies this
      ensures categories == CategoryChoices(service.data.categories, isIncome)
      ensures selectedCategory == if |categories| > 0 then Some(categories[0]) else old(selectedCategory)
      ensures isIncome == old(isIncome) && description == old(description) && amount == old(amount)
      ensures transactionDate == old(transactionDate) && notes == old(notes)
      ensures projects == old(projects) && selectedProject == old(selectedProject)
    {
      categories := CategoryChoices(service.data.categories, isIncome);
      if |categories| > 0 {
        selectedCategory := Some(categories[0]);
      }
    }

    /** `LoadData`: the project names, the first selected when there is one, then the categories. */
    method LoadData(service: DataService)
      modifies this
      ensures projects == ProjectNames(service.data.projects)
      ensures selectedProject == if |projects| > 0 then Some(projects[0]) else old(selectedProject)
      ensures categories == CategoryChoices(service.data.categories, isIncome)
      ensures selectedCategory == if |categories| > 0 then Some(categories[0]) else old(selectedCategory)
      ensures isIncome == old(isIncome) && description == old(description) && amount == old(amount)
      ensures transactionDate == old(transactionDate) && notes == old(notes)
    {
      projects := ProjectNames(service.data.projects);
      if |projects| > 0 {
        selectedProject := Some(projects[0]);
      }
      LoadCategories(service);
    }

    /** `SetIncome`. */
    method SetIncome(service: DataService)
      modifies this
      ensures isIncome
      ensures categories == CategoryChoices(service.data.categories, true)
      ensures selectedCategory == if |categories| > 0 then Some(categories[0]) else old(selectedCategory)
      ensures description == old(description) && amount == old(amount) && notes == old(notes)
      ensures transactionDate == old(transactionDate)
      ensures projects == old(projects) && selectedProject == old(selectedProject)
    {
      isIncome := true;
      LoadCategories(service);
    }

    /** `SetExpense`. */
    method SetExpense(service: DataService)
      modifies this
      ensures !isIncome
      ensures categories == CategoryChoices(service.data.categories, false)
      ensures selectedCategory == if |categories| > 0 then Some(categories[0]) else old(selectedCategory)
      ensures description == old(description) && amount == old(amount) && notes == old(notes)
      ensures transactionDate == old(transactionDate)
      ensures projects == old(projects) && selectedProject == old(selectedProject)
    {
      isIncome := false;
      LoadCategories(service);
    }

    /**
     * `AddTransaction`: a form failing a check stores nothing and keeps its
     * fields; a valid one appends its transaction, then clears description,
     * amount and notes, redates itself to `now` and reloads the categories.
     */
    method AddTransaction(service: DataService, now: int) returns (result: Submission)
      modifies this, service
      ensures var check := old(Validate(description, amount, selectedCategory));
        check.Some? ==>
          (result == Rejected(check.value) && service.data == old(service.data)
           && description == old(description) && amount == old(amount) && notes == old(notes)
           && transactionDate == old(transactionDate)
           && selectedCategory == old(selectedCategory) && categories == old(categories))
      ensures old(Validate(description, amount, selectedCategory)).None? ==>
        result == Saved(old(FormTransaction(description, amount, transactionDate, selectedCategory.value,
                                            selectedProject, isIncome)))
        && service.data == old(service.data).(transactions := old(service.data.transactions) + [result.transaction])
        && description == "" && amount == 0.0 && transactionDate == now && notes == ""
        && categories == CategoryChoices(service.data.categories, isIncome)
        && selectedCategory == (if |categories| > 0 then Some(categories[0]) else old(selectedCategory))
      ensures result.Saved? ==>
        !IsBlank(result.transaction.description) && result.transaction.amount > 0.0
        && !IsBlank(result.transaction.category)
      ensures isIncome == old(isIncome) && projects == old(projects) && selectedProject == old(selectedProject)
    {
      var check := Validate(description, amount, selectedCategory);
      if check.Some? {
        return Rejected(check.value);
      }
      var t := FormTransaction(description, amount, transactionDate, selectedCategory.value, selectedProject, isIncome);
      var outcome := service.AddTransaction(t);
      assert outcome == Done;
      result := Saved(t);
      description := "";
      amount := 0.0;
      transactionDate := now;
      notes := "";
      LoadCategories(service);
    }
  }
}
