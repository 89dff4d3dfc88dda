/**
 * `neo4j.services.BackupService`: the server's backup resources. Beyond
 * the generated resource functions, the client adds a lookup of one job
 * by id and an error handler for a manual backup with no foundation.
 */
module BackupService {
  import opened Wrappers
  import opened JsValue
  import Service

  /** The resources the service's generated functions call. */
  const TriggerManualResource := Service.Resource("trigger_manual", "POST", [])
  const TriggerManualFoundationResource := Service.Resource("trigger_manual_foundation", "POST", [])
  const GetJobsResource := Service.Resource("jobs", "GET", [])
  const DeleteJobResource := Service.Resource("job", "DELETE", ["id"])
  const TriggerJobFoundationResource := Service.Resource("trigger_job_foundation", "POST", ["id"])
  const SetJobResource := Service.Resource("jobs", "PUT", [])

  const NoFoundation := "NoBackupFoundationException"

  /**
   * `triggerManual`'s error handler: the arguments `callback` is called
   * with, if it is called at all. Only a missing backup foundation is
   * reported, as `callback(false)`; reading `exception` of `null` or
   * `undefined` throws.
   */
  function TriggerManualError(error: Value): (calls: seq<Value>)
    requires !error.Null? && !error.Undefined?
    ensures |calls| <= 1
    ensures calls != [] ==> calls == [Bool(false)]
  {
    if LooseEquals(Field(error, "exception"), Str(NoFoundation)) then [Bool(false)] else []
  }

  /** The callback is called exactly for the `NoBackupFoundationException` exception, given by its name. */
  lemma TriggerManualErrorOnlyNoFoundation(error: Value)
    requires !error.Null? && !error.Undefined?
    ensures TriggerManualError(error) == [Bool(false)] <==> Field(error, "exception") == Str(NoFoundation)
    ensures TriggerManualError(error) == [] <==> Field(error, "exception") != Str(NoFoundation)
  {
    if Field(error, "exception").Num? {
      assert !Strings.IsDigit(NoFoundation[0]);
    }
  }

  /** `jobs.jobList`, read as the elements `for (i in jobs.jobList)` visits. */
  function JobList(jobs: Value): seq<Value>
  {
    var list := Field(jobs, "jobList");
    if list.Arr? then list.items else []
  }

  /** A job whose `id` can be read. */
  predicate Readable(job: Value)
  {
    !job.Null? && !job.Undefined?
  }

  /** The job the search stops at: the first whose `id == id` (loose equality), else `null`. */
  function FindJob(list: seq<Value>, id: Value): Value
  {
    if list == [] then Null
    else if LooseEquals(Field(list[0], "id"), id) then list[0]
    else FindJob(list[1..], id)
  }

  /** The search answers the first matching job, and `null` exactly when no job matches. */
  lemma {:induction false} FindJobFirst(list: seq<Value>, id: Value)
    requires forall j | 0 <= j < |list| :: Readable(list[j])
    ensures FindJob(list, id) == Null <==> forall j | 0 <= j < |list| :: !LooseEquals(Field(list[j], "id"), id)
    ensures FindJob(list, id) != Null ==>
              exists i :: 0 <= i < |list| && FindJob(list, id) == list[i] && LooseEquals(Field(list[i], "id"), id)
                          && forall j | 0 <= j < i :: !LooseEquals(Field(list[j], "id"), id)
  {
    if list != [] && !LooseEquals(Field(list[0], "id"), id) {
      FindJobFirst(list[1..], id);
      if FindJob(list, id) != Null {
        var i :| 0 <= i < |list[1..]| && FindJob(list[1..], id) == list[1..][i] && LooseEquals(Field(list[1..][i], "id"), id)
                 && forall j | 0 <= j < i :: !LooseEquals(Field(list[1..][j], "id"), id);
        assert FindJob(list, id) == list[i + 1];
        forall j | 0 <= j < i + 1 ensures !LooseEquals(Field(list[j], "id"), id) {
          if j > 0 {
            assert list[j] == list[1..][j - 1];
          }
        }
      }
    } else if list != [] {
      assert Readable(list[0]);
    }
  }

  /**
   * `getJob(id, callback)`: the one value the callback is handed once the
   * job list arrives. Reading the list of `null` or `undefined`, or the id
   * of a `null` job the search reaches, throws; a job list holding no such
   * entry is demanded here.
   */
  function GetJob(jobs: Value, id: Value): Value
    requires !jobs.Null? && !jobs.Undefined?
    requires forall j | 0 <= j < |JobList(jobs)| :: Readable(JobList(jobs)[j])
  {
    FindJob(JobList(jobs), id)
  }

  /** A job's numeric id is found whether it is asked for as a number or as its decimal text. */
  lemma GetJobByIdText(jobs: Value, n: nat)
    requires !jobs.Null? && !jobs.Undefined?
    requires forall j | 0 <= j < |JobList(jobs)| :: Readable(JobList(jobs)[j])
    requires exists j | 0 <= j < |JobList(jobs)| :: Field(JobList(jobs)[j], "id") == Num(n)
    ensures GetJob(jobs, Str(Strings.NatToString(n))) != Null
    ensures Field(GetJob(jobs, Str(Strings.NatToString(n))), "id") == Num(n) || Field(GetJob(jobs, Str(Strings.NatToString(n))), "id") == Str(Strings.NatToString(n))
  {
    var list := JobList(jobs);
    var id := Str(Strings.NatToString(n));
    var j :| 0 <= j < |list| && Field(list[j], "id") == Num(n);
    LooseEqualsNumberAndText(n);
    FindJobFirst(list, id);
  }
}
