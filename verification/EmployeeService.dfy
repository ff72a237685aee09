/** The mutable employee table behind one service, and the metrics read from it. */
module EmployeeService {
  import opened Collections
  import opened Employees

  datatype Metrics<R> = Metrics(isIdle: bool, currentRequest: R, handledRequests: nat)

  /** The employees at work. */
  ghost function BusyIn<R>(employees: map<string, EmployeeStatus<R>>): set<string> {
    set name | name in employees && !employees[name].isIdle
  }

  class Service<R> {
    const zero: R
    var employees: map<string, EmployeeStatus<R>>

    /** One worker for each different name: a repeated name does not make a second worker. */
    constructor (names: seq<string>, zero: R)
      ensures this.zero == zero
      ensures forall name :: name in employees <==> name in names
      ensures forall name :: name in employees ==> employees[name] == EmployeeStatus(true, zero, 0)
    {
      this.zero := zero;
      employees := map[];
      new;
      for k := 0 to |names|
        invariant this.zero == zero
        invariant forall name :: name in employees <==> name in names[..k]
        invariant forall name :: name in employees ==> employees[name] == EmployeeStatus(true, zero, 0)
      {
        employees := employees[names[k] := EmployeeStatus(true, zero, 0)];
      }
    }

    method SetWorking(name: string, request: R) returns (handled: nat)
      modifies this
      ensures name !in old(employees) ==> employees == old(employees) && handled == 0
      ensures name in old(employees) ==>
        && employees == old(employees)[name := EmployeeStatus(false, request, old(employees)[name].handledRequests + 1)]
        && handled == old(employees)[name].handledRequests + 1
        && BusyIn(employees) == BusyIn(old(employees)) + {name}
    {
      if name !in employees {
        return 0;
      }
      var status := employees[name];
      employees := employees[name := EmployeeStatus(false, request, status.handledRequests + 1)];
      return employees[name].handledRequests;
    }

    method SetIdle(name: string)
      modifies this
      ensures name !in old(employees) ==> employees == old(employees)
      ensures name in old(employees) ==>
        && employees == old(employees)[name := EmployeeStatus(true, zero, old(employees)[name].handledRequests)]
        && BusyIn(employees) == BusyIn(old(employees)) - {name}
    {
      if name in employees {
        employees := employees[name := EmployeeStatus(true, zero, employees[name].handledRequests)];
      }
    }

    /** The counting loop agrees with the set of busy employees. */
    method IdleCount() returns (idle: nat)
      ensures idle == |employees.Keys| - |BusyIn(employees)|
    {
      idle := 0;
      var todo := employees.Keys;
      ghost var busy := {};
      while todo != {}
        invariant todo <= employees.Keys
        invariant busy == set name | name in BusyIn(employees) && name !in todo
        invariant idle + |busy| + |todo| == |employees.Keys|
      {
        var name :| name in todo;
        assert name !in busy;
        todo := todo - {name};
        if employees[name].isIdle {
          idle := idle + 1;
        } else {
          busy := busy + {name};
        }
      }
      assert busy == BusyIn(employees);
    }

    /** The metrics show every employee as it is. */
    method AllMetrics() returns (metrics: map<string, Metrics<R>>)
      ensures metrics.Keys == employees.Keys
      ensures forall name :: name in employees ==>
        && metrics[name].isIdle == employees[name].isIdle
        && metrics[name].currentRequest == employees[name].currentRequest
        && metrics[name].handledRequests == employees[name].handledRequests
    {
      metrics := map[];
      var todo := employees.Keys;
      while todo != {}
        invariant todo <= employees.Keys
        invariant metrics.Keys == employees.Keys - todo
        invariant forall name :: name in metrics ==>
          metrics[name] ==
          Metrics(employees[name].isIdle, employees[name].currentRequest, employees[name].handledRequests)
      {
        var name :| name in todo;
        var status := employees[name];
        metrics := metrics[name := Metrics(status.isIdle, status.currentRequest, status.handledRequests)];
        todo := todo - {name};
      }
    }
  }
}
