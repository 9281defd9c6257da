/**
 * Harvesting a page's hidden inputs into form data, as the login flow does
 * twice: the login form with `url.Values.Set` (a later input overwrites an
 * earlier one of the same name) and the consent form with `url.Values.Add`
 * (every input is kept, in document order).
 */
module Forms {
  import opened Html
  import opened UrlValues

  const HiddenInput: Selector := InputOfType("hidden")
  const SubmitInput: Selector := InputOfType("submit")

  const UsernameField: string := "ttqusername"
  const PasswordField: string := "userPassword"
  const SubmitValue: string := "1"

  /** An input's `name`, `""` when it has none. */
  function NameOf(e: Element): string
  {
    AttrOrEmpty(e, "name")
  }

  /** An input's `value`, `""` when it has none. */
  function ValueOf(e: Element): string
  {
    AttrOrEmpty(e, "value")
  }

  /** The names carried by the inputs. */
  function Names(xs: seq<Element>): set<string>
  {
    set i | 0 <= i < |xs| :: NameOf(xs[i])
  }

  /** The data after calling `Set(name, value)` for each input in turn. */
  function SetAll(xs: seq<Element>): Values
    decreases |xs|
  {
    if xs == [] then map[]
    else
      var last := xs[|xs| - 1];
      Set(SetAll(xs[..|xs| - 1]), NameOf(last), ValueOf(last))
  }

  /** The data after calling `Add(name, value)` for each input in turn. */
  function AddAll(xs: seq<Element>): Values
    decreases |xs|
  {
    if xs == [] then map[]
    else
      var last := xs[|xs| - 1];
      Add(AddAll(xs[..|xs| - 1]), NameOf(last), ValueOf(last))
  }

  /** The values of the inputs named `k`, in document order. */
  function Named(xs: seq<Element>, k: string): (r: seq<string>)
    ensures |r| <= |xs|
  {
    if xs == [] then []
    else (if NameOf(xs[0]) == k then [ValueOf(xs[0])] else []) + Named(xs[1..], k)
  }

  // ---- The harvests as the source runs them: a loop over the selection ----

  /** `formData.Set(name, value)` for each hidden input of the login page. */
  method HarvestBySet(inputs: seq<Element>) returns (formData: Values)
    ensures formData == SetAll(inputs)
  {
    formData := map[];
    var i := 0;
    while i < |inputs|
      invariant 0 <= i <= |inputs|
      invariant formData == SetAll(inputs[..i])
    {
      var item := inputs[i];
      var name := NameOf(item);
      var value := ValueOf(item);
      formData := Set(formData, name, value);
      assert inputs[..i + 1][..i] == inputs[..i];
      i := i + 1;
    }
    assert inputs[..|inputs|] == inputs;
  }

  /** `formData.Add(name, value)` for each hidden input of the consent page. */
  method HarvestByAdd(inputs: seq<Element>) returns (formData: Values)
    ensures formData == AddAll(inputs)
  {
    formData := map[];
    var i := 0;
    while i < |inputs|
      invariant 0 <= i <= |inputs|
      invariant formData == AddAll(inputs[..i])
    {
      var item := inputs[i];
      formData := Add(formData, NameOf(item), ValueOf(item));
      assert inputs[..i + 1][..i] == inputs[..i];
      i := i + 1;
    }
    assert inputs[..|inputs|] == inputs;
  }

  // ---- What the two harvests mean ----

  /** The Set harvest has one key per distinct input name, and no other. */
  lemma {:induction false} SetAllKeys(xs: seq<Element>)
    ensures SetAll(xs).Keys == Names(xs)
    decreases |xs|
  {
    if xs != [] {
      var init := xs[..|xs| - 1];
      SetAllKeys(init);
      assert Names(xs) == Names(init) + {NameOf(xs[|xs| - 1])} by {
        forall n | n in Names(xs) ensures n in Names(init) + {NameOf(xs[|xs| - 1])} {
          var i :| 0 <= i < |xs| && NameOf(xs[i]) == n;
          if i < |xs| - 1 { assert init[i] == xs[i]; }
        }
        forall n | n in Names(init) ensures n in Names(xs) {
          var i :| 0 <= i < |init| && NameOf(init[i]) == n;
          assert xs[i] == init[i];
        }
      }
    }
  }

  /**
   * Last write wins: a name maps to the single value of the LAST input that
   * carries it.
   */
  lemma {:induction false} SetAllLastWins(xs: seq<Element>, j: nat)
    requires j < |xs|
    requires forall i :: j < i < |xs| ==> NameOf(xs[i]) != NameOf(xs[j])
    ensures NameOf(xs[j]) in SetAll(xs)
    ensures SetAll(xs)[NameOf(xs[j])] == [ValueOf(xs[j])]
    decreases |xs|
  {
    if j < |xs| - 1 {
      var init := xs[..|xs| - 1];
      assert init[j] == xs[j];
      forall i | j < i < |init| ensures NameOf(init[i]) != NameOf(init[j]) {
        assert init[i] == xs[i];
      }
      SetAllLastWins(init, j);
    }
  }

  /** `(a + b)` filtered by name is the two filtered parts, in order. */
  lemma {:induction false} NamedAppend(a: seq<Element>, b: seq<Element>, k: string)
    ensures Named(a + b, k) == Named(a, k) + Named(b, k)
    decreases |a|
  {
    if a == [] {
      assert a + b == b;
    } else {
      var head := if NameOf(a[0]) == k then [ValueOf(a[0])] else [];
      assert (a + b)[0] == a[0];
      assert (a + b)[1..] == a[1..] + b;
      assert Named(a + b, k) == head + Named(a[1..] + b, k);
      NamedAppend(a[1..], b, k);
      assert head + (Named(a[1..], k) + Named(b, k)) == (head + Named(a[1..], k)) + Named(b, k);
    }
  }

  /**
   * The Add harvest keeps every value: each name maps to the values of all
   * inputs carrying it, in document order, and a name is a key exactly when
   * some input carries it.
   */
  lemma {:induction false} AddAllCollects(xs: seq<Element>, k: string)
    ensures ValuesOf(AddAll(xs), k) == Named(xs, k)
    ensures k in AddAll(xs) <==> Named(xs, k) != []
    decreases |xs|
  {
    if xs != [] {
      var init := xs[..|xs| - 1];
      var last := xs[|xs| - 1];
      AddAllCollects(init, k);
      assert xs == init + [last];
      NamedAppend(init, [last], k);
      assert Named([last], k) == (if NameOf(last) == k then [ValueOf(last)] else []);
    }
  }

  /** Both harvests see the same names; Set keeps the last of what Add collects. */
  lemma {:induction false} SetKeepsLastOfAdd(xs: seq<Element>, k: string)
    ensures k in SetAll(xs) <==> k in AddAll(xs)
    ensures k in AddAll(xs) ==> AddAll(xs)[k] != []
    ensures k in SetAll(xs) ==> SetAll(xs)[k] == [AddAll(xs)[k][|AddAll(xs)[k]| - 1]]
    decreases |xs|
  {
    if xs != [] {
      SetKeepsLastOfAdd(xs[..|xs| - 1], k);
    }
  }

  // ---- The two forms the login flow submits ----

  /**
   * The login form: the hidden inputs harvested with Set, then the username,
   * the password, and the submit button's name (`""` without a submit input)
   * set to "1", in that order.
   */
  function LoginFormData(doc: Document, username: string, password: string): Values
  {
    var harvested := SetAll(Find(doc, HiddenInput));
    var withUser := Set(harvested, UsernameField, username);
    var withPassword := Set(withUser, PasswordField, password);
    Set(withPassword, FirstAttr(doc, SubmitInput, "name"), SubmitValue)
  }

  /**
   * The login form's fields: the credentials and the submit button are added
   * to the harvested inputs, the submit button wins a name clash because it
   * is set last, and every other harvested field is sent as harvested.
   */
  lemma LoginFormFields(doc: Document, username: string, password: string)
    ensures var form := LoginFormData(doc, username, password);
      var harvested := SetAll(Find(doc, HiddenInput));
      var submit := FirstAttr(doc, SubmitInput, "name");
      && form.Keys == harvested.Keys + {UsernameField, PasswordField, submit}
      && form[submit] == [SubmitValue]
      && (submit != UsernameField ==> form[UsernameField] == [username])
      && (submit != PasswordField ==> form[PasswordField] == [password])
      && (forall k :: k in harvested && k !in {UsernameField, PasswordField, submit} ==>
            form[k] == harvested[k])
  {
  }

  /** The consent form: the hidden inputs harvested with Add, nothing overlaid. */
  function ConsentFormData(doc: Document): Values
  {
    AddAll(Find(doc, HiddenInput))
  }

  /**
   * The consent form carries exactly the names of the page's hidden inputs,
   * each with all their values in document order: no credentials and no
   * submit field are added.
   */
  lemma ConsentFormFields(doc: Document, k: string)
    ensures var form := ConsentFormData(doc);
      var inputs := Find(doc, HiddenInput);
      && form.Keys == Names(inputs)
      && ValuesOf(form, k) == Named(inputs, k)
  {
    var inputs := Find(doc, HiddenInput);
    SetAllKeys(inputs);
    forall n ensures n in SetAll(inputs) <==> n in AddAll(inputs) {
      SetKeepsLastOfAdd(inputs, n);
    }
    AddAllCollects(inputs, k);
  }

  /** Builds the login form the way the source does, statement by statement. */
  method BuildLoginForm(doc: Document, username: string, password: string) returns (formData: Values)
    ensures formData == LoginFormData(doc, username, password)
  {
    formData := HarvestBySet(Find(doc, HiddenInput));
    formData := Set(formData, UsernameField, username);
    formData := Set(formData, PasswordField, password);
    var submitName := FirstAttr(doc, SubmitInput, "name");
    formData := Set(formData, submitName, SubmitValue);
  }
}
