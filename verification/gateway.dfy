/**
 * The gateway class of the Stripe payment plugin: the fixed list of currencies
 * the plugin can charge in, and the validation of the gateway configuration form.
 */
module Gateway {

  /** A three-letter upper-case ISO 4217 code. */
  predicate IsCurrencyCode(c: string)
  {
    |c| == 3 && 'A' <= c[0] <= 'Z' && 'A' <= c[1] <= 'Z' && 'A' <= c[2] <= 'Z'
  }

  /** `a` and `b` are three-letter codes and `a` sorts strictly before `b` alphabetically. */
  predicate CodeBefore(a: string, b: string)
  {
    |a| == 3 && |b| == 3 &&
    (a[0] < b[0] || (a[0] == b[0] && (a[1] < b[1] || (a[1] == b[1] && a[2] < b[2]))))
  }

  predicate StrictlyAscending(s: seq<string>)
  {
    forall i :: 0 <= i < |s| - 1 ==> CodeBefore(s[i], s[i + 1])
  }

  predicate AllCodes(s: seq<string>)
  {
    forall i :: 0 <= i < |s| ==> IsCurrencyCode(s[i])
  }

  /** Two ascending runs whose meeting point is in order form one ascending run. */
  lemma {:induction false} AscendingJoin(a: seq<string>, b: seq<string>)
    requires StrictlyAscending(a) && StrictlyAscending(b)
    requires a != [] && b != [] && CodeBefore(a[|a| - 1], b[0])
    ensures StrictlyAscending(a + b)
  {
    var ab := a + b;
    forall i | 0 <= i < |ab| - 1
      ensures CodeBefore(ab[i], ab[i + 1])
    {
      if i < |a| - 1 {
        assert ab[i] == a[i] && ab[i + 1] == a[i + 1];
      } else if i == |a| - 1 {
        assert ab[i] == a[|a| - 1] && ab[i + 1] == b[0];
      } else {
        assert ab[i] == b[i - |a|] && ab[i + 1] == b[i - |a| + 1];
      }
    }
  }

  // The source's literal after the leading "USD", in alphabetical runs of eight
  // codes, joined into three longer runs. The runs are kept short, and each
  // neighbouring pair is checked by its own assertion, because the solver's
  // cost of proving a quantified order over a literal list grows steeply with
  // the list's length: these obligations stay small, and the joins are cheap.

  function CodesAedToBam(): (r: seq<string>)
    ensures StrictlyAscending(r) && AllCodes(r) && "USD" !in r
  {
    var r := ["AED", "ALL", "AMD", "ANG", "AUD", "AWG", "AZN", "BAM"];
    assert CodeBefore(r[0], r[1]);
    assert CodeBefore(r[1], r[2]);
    assert CodeBefore(r[2], r[3]);
    assert CodeBefore(r[3], r[4]);
    assert CodeBefore(r[4], r[5]);
    assert CodeBefore(r[5], r[6]);
    assert CodeBefore(r[6], r[7]);
    assert IsCurrencyCode(r[0]);
    assert IsCurrencyCode(r[1]);
    assert IsCurrencyCode(r[2]);
    assert IsCurrencyCode(r[3]);
    assert IsCurrencyCode(r[4]);
    assert IsCurrencyCode(r[5]);
    assert IsCurrencyCode(r[6]);
    assert IsCurrencyCode(r[7]);
    r
  }

  function CodesBbdToBwp(): (r: seq<string>)
    ensures StrictlyAscending(r) && AllCodes(r) && "USD" !in r
  {
    var r := ["BBD", "BDT", "BGN", "BIF", "BMD", "BND", "BSD", "BWP"];
    assert CodeBefore(r[0], r[1]);
    assert CodeBefore(r[1], r[2]);
    assert CodeBefore(r[2], r[3]);
    assert CodeBefore(r[3], r[4]);
    assert CodeBefore(r[4], r[5]);
    assert CodeBefore(r[5], r[6]);
    assert CodeBefore(r[6], r[7]);
    assert IsCurrencyCode(r[0]);
    assert IsCurrencyCode(r[1]);
    assert IsCurrencyCode(r[2]);
    assert IsCurrencyCode(r[3]);
    assert IsCurrencyCode(r[4]);
    assert IsCurrencyCode(r[5]);
    assert IsCurrencyCode(r[6]);
    assert IsCurrencyCode(r[7]);
    r
  }

  function CodesBzdToDzd(): (r: seq<string>)
    ensures StrictlyAscending(r) && AllCodes(r) && "USD" !in r
  {
    var r := ["BZD", "CAD", "CDF", "CHF", "CNY", "DKK", "DOP", "DZD"];
    assert CodeBefore(r[0], r[1]);
    assert CodeBefore(r[1], r[2]);
    assert CodeBefore(r[2], r[3]);
    assert CodeBefore(r[3], r[4]);
    assert CodeBefore(r[4], r[5]);
    assert CodeBefore(r[5], r[6]);
    assert CodeBefore(r[6], r[7]);
    assert IsCurrencyCode(r[0]);
    assert IsCurrencyCode(r[1]);
    assert IsCurrencyCode(r[2]);
    assert IsCurrencyCode(r[3]);
    assert IsCurrencyCode(r[4]);
    assert IsCurrencyCode(r[5]);
    assert IsCurrencyCode(r[6]);
    assert IsCurrencyCode(r[7]);
    r
  }

  function CodesEgpToGmd(): (r: seq<string>)
    ensures StrictlyAscending(r) && AllCodes(r) && "USD" !in r
  {
    var r := ["EGP", "ETB", "EUR", "FJD", "GBP", "GEL", "GIP", "GMD"];
    assert CodeBefore(r[0], r[1]);
    assert CodeBefore(r[1], r[2]);
    assert CodeBefore(r[2], r[3]);
    assert CodeBefore(r[3], r[4]);
    assert CodeBefore(r[4], r[5]);
    assert CodeBefore(r[5], r[6]);
    assert CodeBefore(r[6], r[7]);
    assert IsCurrencyCode(r[0]);
    assert IsCurrencyCode(r[1]);
    assert IsCurrencyCode(r[2]);
    assert IsCurrencyCode(r[3]);
    assert IsCurrencyCode(r[4]);
    assert IsCurrencyCode(r[5]);
    assert IsCurrencyCode(r[6]);
    assert IsCurrencyCode(r[7]);
    r
  }

  function CodesGydToJmd(): (r: seq<string>)
    ensures StrictlyAscending(r) && AllCodes(r) && "USD" !in r
  {
    var r := ["GYD", "HKD", "HRK", "HTG", "IDR", "ILS", "ISK", "JMD"];
    assert CodeBefore(r[0], r[1]);
    assert CodeBefore(r[1], r[2]);
    assert CodeBefore(r[2], r[3]);
    assert CodeBefore(r[3], r[4]);
    assert CodeBefore(r[4], r[5]);
    assert CodeBefore(r[5], r[6]);
    assert CodeBefore(r[6], r[7]);
    assert IsCurrencyCode(r[0]);
    assert IsCurrencyCode(r[1]);
    assert IsCurrencyCode(r[2]);
    assert IsCurrencyCode(r[3]);
    assert IsCurrencyCode(r[4]);
    assert IsCurrencyCode(r[5]);
    assert IsCurrencyCode(r[6]);
    assert IsCurrencyCode(r[7]);
    r
  }

  function CodesJpyToKzt(): (r: seq<string>)
    ensures StrictlyAscending(r) && AllCodes(r) && "USD" !in r
  {
    var r := ["JPY", "KES", "KGS", "KHR", "KMF", "KRW", "KYD", "KZT"];
    assert CodeBefore(r[0], r[1]);
    assert CodeBefore(r[1], r[2]);
    assert CodeBefore(r[2], r[3]);
    assert CodeBefore(r[3], r[4]);
    assert CodeBefore(r[4], r[5]);
    assert CodeBefore(r[5], r[6]);
    assert CodeBefore(r[6], r[7]);
    assert IsCurrencyCode(r[0]);
    assert IsCurrencyCode(r[1]);
    assert IsCurrencyCode(r[2]);
    assert IsCurrencyCode(r[3]);
    assert IsCurrencyCode(r[4]);
    assert IsCurrencyCode(r[5]);
    assert IsCurrencyCode(r[6]);
    assert IsCurrencyCode(r[7]);
    r
  }

  function CodesLbpToMkd(): (r: seq<string>)
    ensures StrictlyAscending(r) && AllCodes(r) && "USD" !in r
  {
    var r := ["LBP", "LKR", "LRD", "LSL", "MAD", "MDL", "MGA", "MKD"];
    assert CodeBefore(r[0], r[1]);
    assert CodeBefore(r[1], r[2]);
    assert CodeBefore(r[2], r[3]);
    assert CodeBefore(r[3], r[4]);
    assert CodeBefore(r[4], r[5]);
    assert CodeBefore(r[5], r[6]);
    assert CodeBefore(r[6], r[7]);
    assert IsCurrencyCode(r[0]);
    assert IsCurrencyCode(r[1]);
    assert IsCurrencyCode(r[2]);
    assert IsCurrencyCode(r[3]);
    assert IsCurrencyCode(r[4]);
    assert IsCurrencyCode(r[5]);
    assert IsCurrencyCode(r[6]);
    assert IsCurrencyCode(r[7]);
    r
  }

  function CodesMmkToMyr(): (r: seq<string>)
    ensures StrictlyAscending(r) && AllCodes(r) && "USD" !in r
  {
    var r := ["MMK", "MNT", "MOP", "MRO", "MVR", "MWK", "MXN", "MYR"];
    assert CodeBefore(r[0], r[1]);
    assert CodeBefore(r[1], r[2]);
    assert CodeBefore(r[2], r[3]);
    assert CodeBefore(r[3], r[4]);
    assert CodeBefore(r[4], r[5]);
    assert CodeBefore(r[5], r[6]);
    assert CodeBefore(r[6], r[7]);
    assert IsCurrencyCode(r[0]);
    assert IsCurrencyCode(r[1]);
    assert IsCurrencyCode(r[2]);
    assert IsCurrencyCode(r[3]);
    assert IsCurrencyCode(r[4]);
    assert IsCurrencyCode(r[5]);
    assert IsCurrencyCode(r[6]);
    assert IsCurrencyCode(r[7]);
    r
  }

  function CodesMznToPhp(): (r: seq<string>)
    ensures StrictlyAscending(r) && AllCodes(r) && "USD" !in r
  {
    var r := ["MZN", "NAD", "NGN", "NOK", "NPR", "NZD", "PGK", "PHP"];
    assert CodeBefore(r[0], r[1]);
    assert CodeBefore(r[1], r[2]);
    assert CodeBefore(r[2], r[3]);
    assert CodeBefore(r[3], r[4]);
    assert CodeBefore(r[4], r[5]);
    assert CodeBefore(r[5], r[6]);
    assert CodeBefore(r[6], r[7]);
    assert IsCurrencyCode(r[0]);
    assert IsCurrencyCode(r[1]);
    assert IsCurrencyCode(r[2]);
    assert IsCurrencyCode(r[3]);
    assert IsCurrencyCode(r[4]);
    assert IsCurrencyCode(r[5]);
    assert IsCurrencyCode(r[6]);
    assert IsCurrencyCode(r[7]);
    r
  }

  function CodesPkrToSar(): (r: seq<string>)
    ensures StrictlyAscending(r) && AllCodes(r) && "USD" !in r
  {
    var r := ["PKR", "PLN", "QAR", "RON", "RSD", "RUB", "RWF", "SAR"];
    assert CodeBefore(r[0], r[1]);
    assert CodeBefore(r[1], r[2]);
    assert CodeBefore(r[2], r[3]);
    assert CodeBefore(r[3], r[4]);
    assert CodeBefore(r[4], r[5]);
    assert CodeBefore(r[5], r[6]);
    assert CodeBefore(r[6], r[7]);
    assert IsCurrencyCode(r[0]);
    assert IsCurrencyCode(r[1]);
    assert IsCurrencyCode(r[2]);
    assert IsCurrencyCode(r[3]);
    assert IsCurrencyCode(r[4]);
    assert IsCurrencyCode(r[5]);
    assert IsCurrencyCode(r[6]);
    assert IsCurrencyCode(r[7]);
    r
  }

  function CodesSbdToThb(): (r: seq<string>)
    ensures StrictlyAscending(r) && AllCodes(r) && "USD" !in r
  {
    var r := ["SBD", "SCR", "SEK", "SGD", "SLL", "SOS", "SZL", "THB"];
    assert CodeBefore(r[0], r[1]);
    assert CodeBefore(r[1], r[2]);
    assert CodeBefore(r[2], r[3]);
    assert CodeBefore(r[3], r[4]);
    assert CodeBefore(r[4], r[5]);
    assert CodeBefore(r[5], r[6]);
    assert CodeBefore(r[6], r[7]);
    assert IsCurrencyCode(r[0]);
    assert IsCurrencyCode(r[1]);
    assert IsCurrencyCode(r[2]);
    assert IsCurrencyCode(r[3]);
    assert IsCurrencyCode(r[4]);
    assert IsCurrencyCode(r[5]);
    assert IsCurrencyCode(r[6]);
    assert IsCurrencyCode(r[7]);
    r
  }

  function CodesTjsToUgx(): (r: seq<string>)
    ensures StrictlyAscending(r) && AllCodes(r) && "USD" !in r
  {
    var r := ["TJS", "TOP", "TRY", "TTD", "TWD", "TZS", "UAH", "UGX"];
    assert CodeBefore(r[0], r[1]);
    assert CodeBefore(r[1], r[2]);
    assert CodeBefore(r[2], r[3]);
    assert CodeBefore(r[3], r[4]);
    assert CodeBefore(r[4], r[5]);
    assert CodeBefore(r[5], r[6]);
    assert CodeBefore(r[6], r[7]);
    assert IsCurrencyCode(r[0]);
    assert IsCurrencyCode(r[1]);
    assert IsCurrencyCode(r[2]);
    assert IsCurrencyCode(r[3]);
    assert IsCurrencyCode(r[4]);
    assert IsCurrencyCode(r[5]);
    assert IsCurrencyCode(r[6]);
    assert IsCurrencyCode(r[7]);
    r
  }

  function CodesUzsToZar(): (r: seq<string>)
    ensures StrictlyAscending(r) && AllCodes(r) && "USD" !in r
  {
    var r := ["UZS", "VND", "VUV", "WST", "XAF", "XCD", "YER", "ZAR"];
    assert CodeBefore(r[0], r[1]);
    assert CodeBefore(r[1], r[2]);
    assert CodeBefore(r[2], r[3]);
    assert CodeBefore(r[3], r[4]);
    assert CodeBefore(r[4], r[5]);
    assert CodeBefore(r[5], r[6]);
    assert CodeBefore(r[6], r[7]);
    assert IsCurrencyCode(r[0]);
    assert IsCurrencyCode(r[1]);
    assert IsCurrencyCode(r[2]);
    assert IsCurrencyCode(r[3]);
    assert IsCurrencyCode(r[4]);
    assert IsCurrencyCode(r[5]);
    assert IsCurrencyCode(r[6]);
    assert IsCurrencyCode(r[7]);
    r
  }

  function CodesAedToGmd(): (r: seq<string>)
    ensures StrictlyAscending(r) && AllCodes(r) && "USD" !in r
  {
    AscendingJoin(CodesAedToBam(), CodesBbdToBwp());
    AscendingJoin(CodesAedToBam() + CodesBbdToBwp(), CodesBzdToDzd());
    AscendingJoin(CodesAedToBam() + CodesBbdToBwp() + CodesBzdToDzd(), CodesEgpToGmd());
    CodesAedToBam() + CodesBbdToBwp() + CodesBzdToDzd() + CodesEgpToGmd()
  }

  function CodesGydToMyr(): (r: seq<string>)
    ensures StrictlyAscending(r) && AllCodes(r) && "USD" !in r
  {
    AscendingJoin(CodesGydToJmd(), CodesJpyToKzt());
    AscendingJoin(CodesGydToJmd() + CodesJpyToKzt(), CodesLbpToMkd());
    AscendingJoin(CodesGydToJmd() + CodesJpyToKzt() + CodesLbpToMkd(), CodesMmkToMyr());
    CodesGydToJmd() + CodesJpyToKzt() + CodesLbpToMkd() + CodesMmkToMyr()
  }

  function CodesMznToZar(): (r: seq<string>)
    ensures StrictlyAscending(r) && AllCodes(r) && "USD" !in r
  {
    AscendingJoin(CodesMznToPhp(), CodesPkrToSar());
    AscendingJoin(CodesMznToPhp() + CodesPkrToSar(), CodesSbdToThb());
    AscendingJoin(CodesMznToPhp() + CodesPkrToSar() + CodesSbdToThb(), CodesTjsToUgx());
    AscendingJoin(CodesMznToPhp() + CodesPkrToSar() + CodesSbdToThb() + CodesTjsToUgx(), CodesUzsToZar());
    CodesMznToPhp() + CodesPkrToSar() + CodesSbdToThb() + CodesTjsToUgx() + CodesUzsToZar()
  }

  /**
   * The currencies the plugin can charge in. The account decides which of them
   * it accepts; amounts in all of them are sent in minor units.
   */
  function SupportedCurrencies(): (codes: seq<string>)
    ensures |codes| == 105
  {
    ["USD"] + CodesAfterUsd()
  }

  function CodesAfterUsd(): seq<string>
  {
    CodesAedToGmd() + CodesGydToMyr() + CodesMznToZar()
  }

  /** After the leading "USD" the codes run alphabetically from "AED" to "ZAR". */
  lemma {:induction false} SupportedCurrenciesOrder()
    ensures var codes := SupportedCurrencies();
      codes[0] == "USD" && codes[1] == "AED" && codes[104] == "ZAR" && StrictlyAscending(codes[1..])
  {
    AscendingJoin(CodesAedToGmd(), CodesGydToMyr());
    AscendingJoin(CodesAedToGmd() + CodesGydToMyr(), CodesMznToZar());
    assert SupportedCurrencies()[1..] == CodesAfterUsd();
  }

  /** Every entry is a three-letter upper-case code, and "USD" is listed once. */
  lemma SupportedCurrenciesAreCodes()
    ensures AllCodes(SupportedCurrencies())
    ensures "USD" !in SupportedCurrencies()[1..]
  {
    assert SupportedCurrencies()[1..] == CodesAfterUsd();
  }

  /** The zero-decimal currencies JPY, KRW and VND are supported. */
  lemma ZeroDecimalCodesSupported()
    ensures "JPY" in SupportedCurrencies() && "KRW" in SupportedCurrencies() && "VND" in SupportedCurrencies()
  {
    assert CodesJpyToKzt()[0] == "JPY" && CodesJpyToKzt()[5] == "KRW" && CodesUzsToZar()[1] == "VND";
  }

  /** The fields of the gateway configuration form that the validation reads. */
  datatype GatewayForm = GatewayForm(enabled: bool, apiKey: string, secretKey: string, paymentMethods: seq<string>)

  /** PHP's `empty()` on a string: the empty string and "0" are both empty. */
  predicate EmptyText(s: string)
  {
    s == "" || s == "0"
  }

  /** Some setting the gateway needs before it can be switched on is empty. */
  predicate MissingSetting(form: GatewayForm)
  {
    EmptyText(form.apiKey) || EmptyText(form.secretKey) || |form.paymentMethods| == 0
  }

  /** The identifier of the host's "gateway cannot be enabled" message. */
  const GatewayCannotBeEnabled: string := "gatewaycannotbeenabled"

  /**
   * Validates the configuration form: an enabled gateway with an empty
   * publishable key, secret key or payment-method list gets an error on the
   * "enabled" field. The errors array is passed by reference in the source;
   * here it goes in as `errors` and comes back as `updated`.
   */
  method ValidateGatewayForm(form: GatewayForm, errors: map<string, string>) returns (updated: map<string, string>)
    ensures form.enabled && MissingSetting(form) ==> updated == errors["enabled" := GatewayCannotBeEnabled]
    ensures !(form.enabled && MissingSetting(form)) ==> updated == errors
    ensures "enabled" in updated <==> "enabled" in errors || (form.enabled && MissingSetting(form))
    ensures forall k :: k != "enabled" ==> (k in updated <==> k in errors)
    ensures forall k :: k in errors && k != "enabled" ==> updated[k] == errors[k]
  {
    updated := errors;
    if form.enabled && MissingSetting(form) {
      updated := updated["enabled" := GatewayCannotBeEnabled];
    }
  }
}
