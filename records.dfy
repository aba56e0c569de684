/**
 * The scraped job record and the dedup-key lookup `getattr(job, key_field)`.
 */
module Records {
  import opened Common

  /** One scraped posting, with the fields of the API's job response model. */
  datatype Job = Job(
    title: string,
    company: string,
    location: string,
    classification: string,
    subcategory: string,
    jobUrl: string,
    postedDate: Option<string>,
    salary: Option<string>,
    jobType: Option<string>,
    description: Option<string>,
    scrapedAt: string,
    jobId: Option<string>)

  /** The attributes a configured `key_field` can name. */
  datatype KeyField =
    | Title | Company | Location | Classification | Subcategory | JobUrl
    | PostedDate | Salary | JobType | Description | ScrapedAt | JobIdField

  /** The default dedup key, `job_url`. */
  const DefaultKeyFieldName: string := "job_url"

  /** The Python attribute name of each key field. */
  function FieldName(f: KeyField): string {
    match f
    case Title => "title"
    case Company => "company"
    case Location => "location"
    case Classification => "classification"
    case Subcategory => "subcategory"
    case JobUrl => "job_url"
    case PostedDate => "posted_date"
    case Salary => "salary"
    case JobType => "job_type"
    case Description => "description"
    case ScrapedAt => "scraped_at"
    case JobIdField => "job_id"
  }

  /**
   * Resolves an attribute name as `getattr` does; `None` stands for the
   * `AttributeError` it raises for a name that is not a field.
   */
  function FieldNamed(name: string): (r: Option<KeyField>)
    ensures r.Some? ==> FieldName(r.value) == name
    ensures r.None? ==> forall f: KeyField :: FieldName(f) != name
  {
    if name == "title" then Some(Title)
    else if name == "company" then Some(Company)
    else if name == "location" then Some(Location)
    else if name == "classification" then Some(Classification)
    else if name == "subcategory" then Some(Subcategory)
    else if name == "job_url" then Some(JobUrl)
    else if name == "posted_date" then Some(PostedDate)
    else if name == "salary" then Some(Salary)
    else if name == "job_type" then Some(JobType)
    else if name == "description" then Some(Description)
    else if name == "scraped_at" then Some(ScrapedAt)
    else if name == "job_id" then Some(JobIdField)
    else None
  }

  /** Looking up a field's own name finds that field. */
  lemma FieldNamedRoundTrip(f: KeyField)
    ensures FieldNamed(FieldName(f)) == Some(f)
  {
  }

  /** The message of the `AttributeError` raised by `getattr(job, name)`. */
  function AttributeErrorMessage(name: string): string {
    "'Job' object has no attribute '" + name + "'"
  }

  /**
   * The dedup key of a record: `getattr(job, key_field)`. A required field
   * gives `Some(value)`; an optional field gives its value, `None` included,
   * since `None` is a valid set element in Python.
   */
  function KeyOf(job: Job, f: KeyField): Option<string> {
    match f
    case Title => Some(job.title)
    case Company => Some(job.company)
    case Location => Some(job.location)
    case Classification => Some(job.classification)
    case Subcategory => Some(job.subcategory)
    case JobUrl => Some(job.jobUrl)
    case PostedDate => job.postedDate
    case Salary => job.salary
    case JobType => job.jobType
    case Description => job.description
    case ScrapedAt => Some(job.scrapedAt)
    case JobIdField => job.jobId
  }

  /** Only an optional field can give the key `None`: a required field always yields its value. */
  lemma KeyOfRequired(job: Job, f: KeyField)
    ensures KeyOf(job, f).None? ==> f.PostedDate? || f.Salary? || f.JobType? || f.Description? || f.JobIdField?
    ensures f.JobUrl? ==> KeyOf(job, f) == Some(job.jobUrl)
  {
  }
}
