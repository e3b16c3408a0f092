/** The pure parts of the company form: the phone field's parser, the body
    that a submit dispatches, and the company-size select options. */
module CompanyForm {
  import opened JsValue
  import JobsDucks

  /** The characters outside the regular-expression class `\D`. */
  predicate IsDigit(c: char)
  {
    '0' <= c <= '9'
  }

  predicate AllDigits(s: string)
  {
    forall i :: 0 <= i < |s| ==> IsDigit(s[i])
  }

  /** `value.replace(/\D/g, '')`: every non-digit is deleted. The result
      holds only digits and is never longer than the input. */
  function ParsePhone(s: string): (r: string)
    ensures AllDigits(r)
    ensures |r| <= |s|
  {
    if s == [] then []
    else if IsDigit(s[0]) then [s[0]] + ParsePhone(s[1..])
    else ParsePhone(s[1..])
  }

  /** `r` is `s` with some characters deleted, the rest kept in order. */
  predicate IsSubsequence(r: string, s: string)
    decreases |s|
  {
    r == [] || (s != [] && ((r[0] == s[0] && IsSubsequence(r[1..], s[1..])) || IsSubsequence(r, s[1..])))
  }

  /** The replace is global, so it distributes over concatenation. */
  lemma {:induction false} ParsePhoneConcat(a: string, b: string)
    ensures ParsePhone(a + b) == ParsePhone(a) + ParsePhone(b)
  {
    if a == [] {
      assert a + b == b;
    } else {
      assert (a + b)[0] == a[0];
      assert (a + b)[1..] == a[1..] + b;
      ParsePhoneConcat(a[1..], b);
    }
  }

  /** A string is left unchanged exactly when it is all digits; otherwise
      the result is strictly shorter. */
  lemma {:induction false} ParsePhoneUnchangedIff(s: string)
    ensures ParsePhone(s) == s <==> AllDigits(s)
    ensures !AllDigits(s) ==> |ParsePhone(s)| < |s|
  {
    if s != [] {
      ParsePhoneUnchangedIff(s[1..]);
      if IsDigit(s[0]) {
        assert AllDigits(s) <==> AllDigits(s[1..]) by {
          if AllDigits(s[1..]) {
            forall i | 0 <= i < |s| ensures IsDigit(s[i]) {
              if i > 0 { assert s[i] == s[1..][i - 1]; }
            }
          }
        }
        assert s == [s[0]] + s[1..];
      } else {
        assert !AllDigits(s);
      }
    }
  }

  /** Parsing a parsed phone number changes nothing. */
  lemma ParsePhoneIdempotent(s: string)
    ensures ParsePhone(ParsePhone(s)) == ParsePhone(s)
  {
    ParsePhoneUnchangedIff(ParsePhone(s));
  }

  /** Every digit of the input is kept, as often as it occurs, and nothing
      else is. */
  lemma {:induction false} ParsePhoneKeepsDigits(s: string, c: char)
    ensures multiset(ParsePhone(s))[c] == if IsDigit(c) then multiset(s)[c] else 0
  {
    if s != [] {
      ParsePhoneKeepsDigits(s[1..], c);
      assert s == [s[0]] + s[1..];
    }
  }

  /** The output keeps the input's order: it is a subsequence of the input. */
  lemma {:induction false} ParsePhoneIsSubsequence(s: string)
    ensures IsSubsequence(ParsePhone(s), s)
  {
    if s != [] {
      ParsePhoneIsSubsequence(s[1..]);
      if IsDigit(s[0]) {
        var r := ParsePhone(s);
        assert r[0] == s[0] && r[1..] == ParsePhone(s[1..]);
      }
    }
  }

  /** No all-digit subsequence of the input is longer than the output. */
  lemma {:induction false} DigitSubsequenceBound(r: string, s: string)
    requires IsSubsequence(r, s)
    requires AllDigits(r)
    ensures |r| <= |ParsePhone(s)|
    decreases |s|
  {
    if r != [] {
      assert AllDigits(r[1..]) by {
        forall i | 0 <= i < |r[1..]| ensures IsDigit(r[1..][i]) {
          assert r[1..][i] == r[i + 1];
        }
      }
      assert IsDigit(r[0]);
      if r[0] == s[0] && IsSubsequence(r[1..], s[1..]) {
        DigitSubsequenceBound(r[1..], s[1..]);
      } else {
        DigitSubsequenceBound(r, s[1..]);
      }
    }
  }

  /** The output is exactly the subsequence of the input's digits: any
      all-digit subsequence at least as long as it is equal to it. */
  lemma {:induction false} ParsePhoneIsDigitSubsequence(r: string, s: string)
    requires IsSubsequence(r, s)
    requires AllDigits(r)
    requires |r| >= |ParsePhone(s)|
    ensures r == ParsePhone(s)
    decreases |s|
  {
    if r == [] {
    } else {
      assert AllDigits(r[1..]) by {
        forall i | 0 <= i < |r[1..]| ensures IsDigit(r[1..][i]) {
          assert r[1..][i] == r[i + 1];
        }
      }
      assert IsDigit(r[0]);
      if r[0] == s[0] && IsSubsequence(r[1..], s[1..]) {
        ParsePhoneIsDigitSubsequence(r[1..], s[1..]);
      } else {
        DigitSubsequenceBound(r, s[1..]);
        ParsePhoneIsDigitSubsequence(r, s[1..]);
      }
    }
  }

  /** `{ ...data, id }`: the session user's id overrides any `id` in the
      form data; every other key of the data is carried over as it is, and
      no other key is added. */
  function SubmitBody(data: Object, id: Value): (body: Object)
    ensures body.Keys == data.Keys + {"id"}
    ensures body["id"] == id
    ensures forall k :: k in data && k != "id" ==> body[k] == data[k]
  {
    data["id" := id]
  }

  /** Whatever `id` the form data holds, the body is the same. */
  lemma SubmitBodyIgnoresFormId(data: Object, id: Value)
    ensures SubmitBody(data, id) == SubmitBody(data - {"id"}, id)
  {
    assert SubmitBody(data, id).Keys == SubmitBody(data - {"id"}, id).Keys;
  }

  /** The action a submit dispatches carries the session user's id as
      `payload.data.id`, and reducing it only raises the loading flag. */
  lemma SubmitActionCarriesUserId(data: Object, id: Value, s: Object)
    ensures var action := JobsDucks.CreateCompany(Obj(SubmitBody(data, id)));
            Get(Prop(action, "payload"), "data") == Ok(Obj(SubmitBody(data, id)))
            && Prop(SubmitBody(data, id), "id") == id
            && JobsDucks.Reduce(Some(s), action) == Ok(s["isLoading" := Bool(true)])
  {
    JobsDucks.CreateCompanyRaisesLoading(s, Obj(SubmitBody(data, id)));
  }

  /** One entry of the company-size select. */
  datatype SizeOption = SizeOption(name: string, value: string)

  const CompanySizeOptions: seq<SizeOption> := [
    SizeOption("How many emplooyes?", ""),
    SizeOption("1 - 9", "1 - 9"),
    SizeOption("10 - 49", "10 - 49"),
    SizeOption("50 - 149", "50 - 149"),
    SizeOption("150 - 499", "150 - 499"),
    SizeOption("500 - 999", "500 - 999"),
    SizeOption("1000 +", "1000 +")
  ]

  /** Only the first option, the placeholder, has an empty value; every
      other option's label is its value, and the values are distinct. */
  lemma CompanySizeOptionsShape()
    ensures |CompanySizeOptions| == 7
    ensures forall i :: 0 <= i < |CompanySizeOptions| ==> (CompanySizeOptions[i].value == "" <==> i == 0)
    ensures forall i :: 1 <= i < |CompanySizeOptions| ==> CompanySizeOptions[i].name == CompanySizeOptions[i].value
    ensures forall i, j :: 0 <= i < j < |CompanySizeOptions| ==> CompanySizeOptions[i].value != CompanySizeOptions[j].value
  {
  }
}
