// Collecting what a list of checks finds.
module Issues {
  // One check of a list of checks that raise issues.
  function Raise<T(==)>(issues: set<T>, bad: bool, issue: T): (r: set<T>)
    ensures r == {} <==> issues == {} && !bad
  {
    assert issue in issues + {issue};
    if bad then issues + {issue} else issues
  }
}
