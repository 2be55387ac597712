/**
 * The per-method timeout interceptor: it looks the request's lower-cased
 * method up in a method-keyed map and, when the method is a key, writes the
 * mapped value into the configuration's `timeout` in place.
 */
module TimeoutInterceptor {
  import opened Wrappers
  import opened Strings
  import opened Http

  /**
   * The caller's per-method timeouts (keys among get, post, put, patch and
   * delete). A key that is present with an undefined value maps to None.
   */
  type Timeouts = map<string, Option<int>>

  /** `config.method?.toLowerCase() ?? ''`. */
  function MethodKey(httpMethod: Option<string>): (k: string)
    ensures httpMethod.None? ==> k == ""
    ensures httpMethod.Some? ==> |k| == |httpMethod.value|
  {
    if httpMethod.Some? then ToLower(httpMethod.value) else ""
  }

  /** The configuration after the interceptor has run. */
  function WithTimeout(timeouts: Timeouts, c: RequestConfig): (r: RequestConfig)
    ensures MethodKey(c.httpMethod) in timeouts ==> r.timeout == timeouts[MethodKey(c.httpMethod)]
    ensures MethodKey(c.httpMethod) !in timeouts ==> r.timeout == c.timeout
    ensures r.(timeout := c.timeout) == c
  {
    var key := MethodKey(c.httpMethod);
    if key in timeouts then c.(timeout := timeouts[key]) else c
  }

  /** `timeoutInterceptor(timeouts)(config)`: updates `config.timeout` and returns the same object. */
  method Apply(timeouts: Timeouts, config: InternalConfig) returns (r: InternalConfig)
    modifies config
    ensures r == config
    ensures config.Snapshot() == WithTimeout(timeouts, old(config.Snapshot()))
  {
    var key := if config.httpMethod.Some? then ToLower(config.httpMethod.value) else "";
    if key in timeouts {
      config.timeout := timeouts[key];
      return config;
    }
    return config;
  }

  /** Running the interceptor twice has the effect of running it once. */
  lemma WithTimeoutIdempotent(timeouts: Timeouts, c: RequestConfig)
    ensures WithTimeout(timeouts, WithTimeout(timeouts, c)) == WithTimeout(timeouts, c)
  {
  }

  lemma LowerUpperChar(ch: char)
    ensures LowerChar(UpperChar(ch)) == LowerChar(ch)
  {
  }

  /** The lookup ignores the case of the method name. */
  lemma MethodCaseIgnored(timeouts: Timeouts, c: RequestConfig, m: string)
    ensures WithTimeout(timeouts, c.(httpMethod := Some(ToUpper(m))))
      == WithTimeout(timeouts, c.(httpMethod := Some(m))).(httpMethod := Some(ToUpper(m)))
  {
    assert ToLower(ToUpper(m)) == ToLower(m) by {
      forall i | 0 <= i < |m| ensures ToLower(ToUpper(m))[i] == ToLower(m)[i] {
        LowerUpperChar(m[i]);
      }
    }
  }

  /** A configuration without a method is looked up under the empty key. */
  lemma MissingMethodUsesEmptyKey(timeouts: Timeouts, c: RequestConfig)
    requires c.httpMethod.None? && "" !in timeouts
    ensures WithTimeout(timeouts, c) == c
  {
  }
}
