/**
 * The employee list of the practical exam: names are filtered by a prefix
 * typed by the user, after trimming and lowercasing it; a query that trims to
 * nothing shows every employee.
 */
module EmployeeList {
  import opened Strings
  import opened Seqs

  datatype Employee = Employee(id: int, name: string, title: string)

  const DefaultEmployees: seq<Employee> := [
    Employee(1, "A", "Engineer"),
    Employee(2, "B", "Designer"),
    Employee(3, "C", "Manager"),
    Employee(4, "D", "Engineer")
  ]

  /** The normalised query `filter.trim().toLowerCase()`. */
  function Query(filter: string): (q: string)
    ensures |q| <= |filter|
    ensures forall i :: 0 <= i < |q| ==> !IsUpper(q[i])
    ensures q == "" <==> AllWhitespace(filter)
  {
    TrimEmptyIff(filter);
    ToLower(Trim(filter))
  }

  predicate NameStartsWith(e: Employee, q: string) {
    StartsWith(ToLower(e.name), q)
  }

  /** The `filtered` memo of `EmployeeList`: a blank or white-space-only filter shows every employee, unchanged. */
  function Filtered(employees: seq<Employee>, filter: string): (r: seq<Employee>)
    ensures |r| <= |employees|
    ensures AllWhitespace(filter) ==> r == employees
  {
    var q := Query(filter);
    if q == "" then employees else Filter(e => NameStartsWith(e, q), employees)
  }

  /** Otherwise an employee is shown exactly when listed and its lowercased name starts with the query. */
  lemma FilteredMembership(employees: seq<Employee>, filter: string, e: Employee)
    requires !AllWhitespace(filter)
    ensures e in Filtered(employees, filter) <==> e in employees && StartsWith(ToLower(e.name), Query(filter))
  {
    assert Query(filter) != "";
    FilterMembership(x => NameStartsWith(x, Query(filter)), employees, e);
  }

  /** The shown employees keep the given order. */
  lemma FilteredSubsequence(employees: seq<Employee>, filter: string)
    ensures IsSubsequence(Filtered(employees, filter), employees)
  {
    var q := Query(filter);
    if q == "" {
      SubsequenceRefl(employees);
    } else {
      FilterIsSubsequence(e => NameStartsWith(e, q), employees);
    }
  }

  /** Surrounding white space in the filter does not change what is shown. */
  lemma FilteredIgnoresPadding(employees: seq<Employee>, a: string, filter: string, b: string)
    requires AllWhitespace(a) && AllWhitespace(b)
    ensures Filtered(employees, a + filter + b) == Filtered(employees, filter)
  {
    TrimIgnoresPadding(a, filter, b);
  }

  /** Two filters that differ only in letter case show the same employees. */
  lemma FilteredIgnoresCase(employees: seq<Employee>, filter: string, filter': string)
    requires ToLower(filter) == ToLower(filter')
    ensures Filtered(employees, filter) == Filtered(employees, filter')
  {
    TrimLowerCommute(filter);
    TrimLowerCommute(filter');
  }

  /** On the default list the filter "a" shows only employee 1. */
  lemma DefaultFilterA()
    ensures Filtered(DefaultEmployees, "a") == [DefaultEmployees[0]]
  {
    QueryOfA();
    var p := e => NameStartsWith(e, "a");
    var es := DefaultEmployees;
    DefaultNamesStartingWithA();
    assert Filter(p, es[3..]) == [];
    assert Filter(p, es[2..]) == [] by { assert es[2..][1..] == es[3..]; }
    assert Filter(p, es[1..]) == [] by { assert es[1..][1..] == es[2..]; }
  }

  lemma QueryOfA()
    ensures Query("a") == "a"
  {
    TrimOfA();
    LowerOfA();
  }

  lemma TrimOfA()
    ensures Trim("a") == "a"
  {
    var a := "a";
    assert !IsWhitespace(a[0]);
    assert TrimStart(a) == a;
    assert TrimEnd(a) == a;
  }

  lemma LowerOfA()
    ensures ToLower("a") == "a"
  {
    assert LowerChar('a') == 'a';
  }

  lemma DefaultNamesStartingWithA()
    ensures NameStartsWith(DefaultEmployees[0], "a")
    ensures forall k :: 1 <= k < 4 ==> !NameStartsWith(DefaultEmployees[k], "a")
  {
    assert ToLower("A") == "a" by { assert LowerChar('A') == 'a'; }
    assert ToLower("B")[0] == 'b';
    assert ToLower("C")[0] == 'c';
    assert ToLower("D")[0] == 'd';
  }
}
