/** The two pieces of PHP semantics the plugin's decisions rest on. */
module Php {

  /** PHP's conversion of a string to bool: exactly "" and "0" are false,
      every other string (" ", "0.0", "00", "false") is true. */
  predicate Truthy(s: string)
  {
    s != "" && s != "0"
  }

  /** `empty($a[k])` on a string-valued array such as `$_POST`: an unset key
      is empty, and so is any value PHP converts to false. */
  predicate EmptyAt(a: map<string, string>, k: string)
  {
    k !in a || !Truthy(a[k])
  }
}
