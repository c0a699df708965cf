/** News records of the news service. */
module News {
  import opened Common
  import Seeding

  datatype NewsItem = NewsItem(title: string, category: string, description: string, imageUrl: string, aiHint: string)

  const RemoteWork := NewsItem("The Future of Remote Work: Trends for 2025", "Career Advice",
    "Explore the evolving landscape of remote work and how to position yourself for success in a distributed workforce.",
    "https://placehold.co/600x400.png", "remote work")
  const DigitalNetworking := NewsItem("Networking in the Digital Age: A Guide for Students", "Networking",
    "Learn effective strategies for building your professional network online, from LinkedIn to virtual events.",
    "https://placehold.co/600x400.png", "networking conference")
  const TechSkills := NewsItem("Top 10 In-Demand Tech Skills for New Grads", "Tech",
    "Discover the most sought-after technical skills in the job market today and how you can learn them.",
    "https://placehold.co/600x400.png", "coding programming")
  const BehavioralInterview := NewsItem("Mastering the Behavioral Interview", "Interviewing",
    "Get expert tips on how to ace behavioral interview questions using the STAR method.",
    "https://placehold.co/600x400.png", "job interview")
  const Portfolio := NewsItem("Building a Standout Portfolio", "Career Advice",
    "A strong portfolio can make all the difference. Learn what to include and how to present your work.",
    "https://placehold.co/600x400.png", "design portfolio")
  const SalaryNegotiation := NewsItem("Salary Negotiation for Your First Job", "Salary",
    "Don't leave money on the table. Here's how to approach salary negotiations with confidence.",
    "https://placehold.co/600x400.png", "negotiation business")

  const InitialNewsItems: seq<NewsItem> := [RemoteWork, DigitalNetworking, TechSkills, BehavioralInterview, Portfolio, SalaryNegotiation]

  /** `mockNews`: the canonical news items with ids "mock-news-i". */
  function MockNews(): (r: seq<Doc<NewsItem>>)
    ensures |r| == |InitialNewsItems| == 6
    ensures forall i :: 0 <= i < 6 ==> r[i].id == Seeding.MockId("mock-news-", i) && r[i].data == InitialNewsItems[i]
  {
    Seeding.MockDocs("mock-news-", InitialNewsItems)
  }
}
