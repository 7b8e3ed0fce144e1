/** The persisted entity graph: a Project owns Jobs, a Job owns Segments,
    and each child points back at its owner. These are plain objects
    updated in place; the persistence layer is not modelled. */
module Entities {
  import Members

  /** `ProjectStatus`. */
  datatype ProjectStatus = CREATED | PROCESSING | COMPLETED | FAILED

  /** `JobStatus`, of which the model only needs the value a new job gets. */
  datatype JobStatus = PENDING

  /** A `Double` start or end time, kept as its IEEE 754 bit pattern: the
      entities store it and never compare or compute with it. */
  datatype Double = Double(bits: bv64)

  /** A Java `Integer`. */
  newtype Int32 = x: int | -0x8000_0000 <= x < 0x8000_0000

  /** A project. Its owner is the backend's `Member` value, which stands
      for the JPA member reference of both the `com.overlang` and the `kr`
      project entity. */
  class Project {
    var jobs: seq<Job>
    var member: Members.Member
    var title: string
    var videoUrl: string
    var status: ProjectStatus

    /** Every job in the list points back at this project. */
    ghost predicate OwnsJobs()
      reads this, jobs
    {
      forall j | j in jobs :: j.project == this
    }

    /** `new Project(member, title, videoUrl)`: no jobs yet, status CREATED. */
    constructor (member: Members.Member, title: string, videoUrl: string)
      ensures this.member == member && this.title == title && this.videoUrl == videoUrl
      ensures jobs == [] && status == CREATED
      ensures OwnsJobs()
    {
      this.jobs := [];
      this.member := member;
      this.title := title;
      this.videoUrl := videoUrl;
      this.status := CREATED;
    }

    /** `addJob(job)`: append the job (a job already in the list is appended
        again) and point it at this project. */
    method AddJob(job: Job)
      modifies this, job
      ensures jobs == old(jobs) + [job]
      ensures job.project == this
      ensures member == old(member) && title == old(title) && videoUrl == old(videoUrl) && status == old(status)
      ensures job.segments == old(job.segments) && job.status == old(job.status) && job.jobType == old(job.jobType)
      ensures old(OwnsJobs()) ==> OwnsJobs()
    {
      jobs := jobs + [job];
      job.SetProject(this);
    }
  }

  class Job {
    var segments: seq<Segment>
    var project: Project?
    var status: JobStatus
    var jobType: string

    /** Every segment in the list points back at this job. */
    ghost predicate OwnsSegments()
      reads this, segments
    {
      forall s | s in segments :: s.job == this
    }

    /** `new Job(project, type)`: no segments yet, status PENDING. The
        project is not told about the job. */
    constructor (project: Project?, jobType: string)
      ensures this.project == project && this.jobType == jobType
      ensures segments == [] && status == PENDING
      ensures OwnsSegments()
    {
      this.segments := [];
      this.project := project;
      this.jobType := jobType;
      this.status := PENDING;
    }

    /** `setProject(project)`: overwrite the owner and nothing else. */
    method SetProject(project: Project?)
      modifies this
      ensures this.project == project
      ensures segments == old(segments) && status == old(status) && jobType == old(jobType)
    {
      this.project := project;
    }

    /** `addSegment(segment)`: append the segment and point it at this job. */
    method AddSegment(segment: Segment)
      modifies this, segment
      ensures segments == old(segments) + [segment]
      ensures segment.job == this
      ensures project == old(project) && status == old(status) && jobType == old(jobType)
      ensures segment.startTime == old(segment.startTime) && segment.endTime == old(segment.endTime)
      ensures segment.seqNo == old(segment.seqNo) && segment.text == old(segment.text)
      ensures old(OwnsSegments()) ==> OwnsSegments()
    {
      segments := segments + [segment];
      segment.SetJob(this);
    }
  }

  class Segment {
    var job: Job?
    var startTime: Double
    var endTime: Double
    var seqNo: Int32
    var text: string

    /** `new Segment(job, startTime, endTime, seq, text)`: the values as
        given, with no check of their order or sign. */
    constructor (job: Job?, startTime: Double, endTime: Double, seqNo: Int32, text: string)
      ensures this.job == job && this.startTime == startTime && this.endTime == endTime
      ensures this.seqNo == seqNo && this.text == text
    {
      this.job := job;
      this.startTime := startTime;
      this.endTime := endTime;
      this.seqNo := seqNo;
      this.text := text;
    }

    /** `setJob(job)`: overwrite the owner and nothing else. */
    method SetJob(job: Job?)
      modifies this
      ensures this.job == job
      ensures startTime == old(startTime) && endTime == old(endTime) && seqNo == old(seqNo) && text == old(text)
    {
      this.job := job;
    }
  }

  /** Growing the graph from the top: a new job built against `project`,
      given a segment and then added to the project. The project keeps its
      earlier jobs, both back-pointer invariants hold afterwards, and the
      owner the job was built with is the one `addJob` sets. */
  method AttachNewJob(project: Project, jobType: string, segment: Segment) returns (job: Job)
    requires project.OwnsJobs()
    modifies project, segment
    ensures fresh(job)
    ensures project.jobs == old(project.jobs) + [job] && job.segments == [segment]
    ensures job.project == project && segment.job == job
    ensures project.OwnsJobs() && job.OwnsSegments()
    ensures job.status == PENDING && job.jobType == jobType
    ensures project.status == old(project.status) && project.member == old(project.member)
  {
    job := new Job(project, jobType);
    job.AddSegment(segment);
    project.AddJob(job);
  }

  /** `addJob` keeps no uniqueness: adding the same job twice lists it twice. */
  method AddJobTwice(project: Project, job: Job)
    modifies project, job
    ensures project.jobs == old(project.jobs) + [job, job]
    ensures job.project == project
  {
    project.AddJob(job);
    project.AddJob(job);
  }

  /** Moving a job to a second project re-points the job but leaves it in
      the first project's list, whose back-pointer invariant then fails. */
  method MoveJob(first: Project, second: Project, job: Job)
    requires first != second
    modifies first, second, job
    ensures job in first.jobs && job.project == second
    ensures !first.OwnsJobs() && (old(second.OwnsJobs()) ==> second.OwnsJobs())
  {
    first.AddJob(job);
    second.AddJob(job);
  }
}
