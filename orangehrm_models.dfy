/**
 * The HR-system test data: login credentials, employee records, search
 * criteria and job titles.
 */
module OrangeHrmModels {
  import opened Wrappers
  import opened Text
  import opened FieldValidation

  datatype LoginCredentials = LoginCredentials(username: string, password: string)

  /** `LoginCredentials(...)`: both non-blank, both stored stripped. */
  function NewLoginCredentials(username: string, password: string): (r: Result<LoginCredentials, seq<FieldError>>)
    ensures r.Success? <==> !AllSpace(username) && !AllSpace(password)
    ensures r.Success? ==> r.value == LoginCredentials(Strip(username), Strip(password))
    ensures r.Failure? ==>
      FailedFields(r.error) == If(AllSpace(username), "username") + If(AllSpace(password), "password")
  {
    var u := StrippedNonBlank(username);
    var p := StrippedNonBlank(password);
    if u.Success? && p.Success? then
      Success(LoginCredentials(u.value, p.value))
    else
      FailedFieldsOf("username", u);
      FailedFieldsOf("password", p);
      FailedFieldsAppend(ErrorsOf("username", u), ErrorsOf("password", p));
      Failure(ErrorsOf("username", u) + ErrorsOf("password", p))
  }

  /** Stored credentials log in as they are: validating them again changes nothing. */
  lemma LoginCredentialsRevalidate(username: string, password: string)
    requires NewLoginCredentials(username, password).Success?
    ensures var c := NewLoginCredentials(username, password).value;
            NewLoginCredentials(c.username, c.password) == Success(c)
  {
    StrippedValueRevalidates(username);
    StrippedValueRevalidates(password);
  }

  datatype EmployeeData = EmployeeData(
    firstName: string,
    middleName: Option<string>,
    lastName: string,
    employeeId: Option<string>)

  /** `EmployeeData(...)`: first and last name non-blank and stored stripped;
      middle name and employee id kept exactly as given, unvalidated. */
  function NewEmployeeData(firstName: string, middleName: Option<string>, lastName: string,
                           employeeId: Option<string>): (r: Result<EmployeeData, seq<FieldError>>)
    ensures r.Success? <==> !AllSpace(firstName) && !AllSpace(lastName)
    ensures r.Success? ==> r.value == EmployeeData(Strip(firstName), middleName, Strip(lastName), employeeId)
    ensures r.Failure? ==>
      FailedFields(r.error) == If(AllSpace(firstName), "first_name") + If(AllSpace(lastName), "last_name")
  {
    var f := MinLengthStrippedNonBlank(firstName);
    var l := MinLengthStrippedNonBlank(lastName);
    if f.Success? && l.Success? then
      Success(EmployeeData(f.value, middleName, l.value, employeeId))
    else
      FailedFieldsOf("first_name", f);
      FailedFieldsOf("last_name", l);
      FailedFieldsAppend(ErrorsOf("first_name", f), ErrorsOf("last_name", l));
      Failure(ErrorsOf("first_name", f) + ErrorsOf("last_name", l))
  }

  datatype EmployeeSearchCriteria = EmployeeSearchCriteria(
    employeeName: Option<string>,
    employeeId: Option<string>,
    supervisorName: Option<string>)

  /** Python truthiness of an optional string: `None` and `""` are false,
      everything else (whitespace included) is true. */
  predicate Truthy(o: Option<string>)
  {
    o.Some? && o.value != []
  }

  /** Python's `any` over a list of optional strings. */
  function Any(xs: seq<Option<string>>): (r: bool)
    ensures r <==> exists i :: 0 <= i < |xs| && Truthy(xs[i])
  {
    if xs == [] then false
    else if Truthy(xs[0]) then true
    else
      var r := Any(xs[1..]);
      assert forall i :: 1 <= i < |xs| ==> xs[i] == xs[1..][i - 1];
      r
  }

  /** `has_criteria`: some criterion is present and non-empty. */
  function HasCriteria(c: EmployeeSearchCriteria): (r: bool)
    ensures r <==> Truthy(c.employeeName) || Truthy(c.employeeId) || Truthy(c.supervisorName)
  {
    var fields := [c.employeeName, c.employeeId, c.supervisorName];
    assert fields[0] == c.employeeName && fields[1] == c.employeeId && fields[2] == c.supervisorName;
    Any(fields)
  }

  /** `None` and `""` count as absent alike, while a whitespace-only name is a criterion. */
  lemma HasCriteriaTreatsEmptyAsAbsent(c: EmployeeSearchCriteria)
    ensures HasCriteria(c.(employeeName := Some(""))) == HasCriteria(c.(employeeName := None))
    ensures HasCriteria(c.(supervisorName := Some(" ")))
  {
  }

  datatype JobTitleData = JobTitleData(jobTitle: string, jobDescription: Option<string>, note: Option<string>)

  /** `JobTitleData(...)`: the title non-blank and stored stripped; description
      and note kept exactly as given. */
  function NewJobTitleData(jobTitle: string, jobDescription: Option<string>, note: Option<string>)
    : (r: Result<JobTitleData, seq<FieldError>>)
    ensures r.Success? <==> !AllSpace(jobTitle)
    ensures r.Success? ==> r.value == JobTitleData(Strip(jobTitle), jobDescription, note)
    ensures r.Failure? ==> r.error == [FieldError("job_title", if jobTitle == [] then TooShort else Blank)]
  {
    var t := MinLengthStrippedNonBlank(jobTitle);
    if t.Success? then Success(JobTitleData(t.value, jobDescription, note))
    else Failure(ErrorsOf("job_title", t))
  }
}
