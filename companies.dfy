/** Company records of the company service. */
module Companies {
  import opened Common
  import Seeding

  datatype Company = Company(name: string, jobsPosted: int, industry: string)

  /** What `addCompany` receives: no id and no `jobsPosted`. */
  datatype CompanyFields = CompanyFields(name: string, industry: string)

  datatype CompanyPatch = CompanyPatch(name: Option<string>, industry: Option<string>)

  const InitialCompanies: seq<Company> := [
    Company("Tech Solutions Inc.", 5, "Technology"),
    Company("Creative Minds LLC", 2, "Design"),
    Company("Analytics Corp", 3, "Data Science"),
    Company("ServerSide Systems", 8, "Software"),
    Company("Innovate Co.", 1, "Product")
  ]

  /** `mockCompanies`: the canonical companies with ids "mock-company-i". */
  function MockCompanies(): (r: seq<Doc<Company>>)
    ensures |r| == |InitialCompanies| == 5
    ensures forall i :: 0 <= i < 5 ==> r[i].id == Seeding.MockId("mock-company-", i) && r[i].data == InitialCompanies[i]
  {
    Seeding.MockDocs("mock-company-", InitialCompanies)
  }

  /** `{ ...companyData, jobsPosted: 0 }`. */
  function NewCompany(f: CompanyFields): (c: Company)
    ensures c.name == f.name && c.industry == f.industry && c.jobsPosted == 0
  {
    Company(f.name, 0, f.industry)
  }

  /** `updateDoc(companyRef, companyData)`. */
  function Patched(c: Company, p: CompanyPatch): (r: Company)
    ensures r.jobsPosted == c.jobsPosted
    ensures (p.name.None? ==> r.name == c.name) && (p.name.Some? ==> r.name == p.name.value)
    ensures (p.industry.None? ==> r.industry == c.industry) && (p.industry.Some? ==> r.industry == p.industry.value)
    ensures p == CompanyPatch(None, None) ==> r == c
  {
    Company(Override(c.name, p.name), c.jobsPosted, Override(c.industry, p.industry))
  }
}
