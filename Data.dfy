/** The static tables of src/data/ as fixtures: the pages above are modelled
    over any table, and these are the values the site ships with. */
module Data {
  import opened Types

  /** src/data/events.ts: ids 1 to 3 are upcoming, ids 4 and 5 are past. */
  const Events: seq<Event> := [
    Event(1,
      "Annual Space Symposium 2025",
      "March 15, 2025",
      "Central Auditorium, IIT ISM Dhanbad",
      "Join us for a day of fascinating talks by industry experts from ISRO and NASA. Learn about the latest developments in space technology and exploration.",
      "https://images.pexels.com/photos/2159/flight-sky-earth-space.jpg?auto=compress&cs=tinysrgb&w=1260&h=750&dpr=1",
      true, Some("#")),
    Event(2,
      "Model Rocket Workshop",
      "April 10, 2025",
      "Engineering Block, IIT ISM Dhanbad",
      "Hands-on workshop to design, build and launch your own model rocket. Materials will be provided.",
      "https://images.pexels.com/photos/73871/rocket-launch-rocket-take-off-nasa-73871.jpeg?auto=compress&cs=tinysrgb&w=1260&h=750&dpr=1",
      true, Some("#")),
    Event(3,
      "Stargazing Night",
      "February 20, 2025",
      "Observatory, IIT ISM Dhanbad",
      "Observe celestial objects through telescopes with guidance from astronomy experts.",
      "https://images.pexels.com/photos/1906658/pexels-photo-1906658.jpeg?auto=compress&cs=tinysrgb&w=1260&h=750&dpr=1",
      true, Some("#")),
    Event(4,
      "Space Quiz Competition",
      "December 12, 2024",
      "Online Event",
      "Test your knowledge about space and astronomy in this exciting quiz competition with exciting prizes.",
      "https://images.pexels.com/photos/41951/solar-system-emergence-spitzer-telescope-telescope-41951.jpeg?auto=compress&cs=tinysrgb&w=1260&h=750&dpr=1",
      false, None),
    Event(5,
      "Guest Lecture: Future of Space Exploration",
      "November 5, 2024",
      "Lecture Hall Complex, IIT ISM Dhanbad",
      "Distinguished lecture by Dr. K. Sivan, former chairman of ISRO, on the future of space exploration.",
      "https://images.pexels.com/photos/3805983/pexels-photo-3805983.jpeg?auto=compress&cs=tinysrgb&w=1260&h=750&dpr=1",
      false, None)
  ]

  /** src/data/news.ts: the first and third items share id 1. */
  const NewsItems: seq<NewsItem> := [
    NewsItem(1,
      "ASTC Astrophotograpgy",
      "2023",
      "We have successfully captured the beauty of space through astrophotography.",
      "/Astro/AstroPhoto1.png"),
    NewsItem(2,
      "History of ASTC",
      "5th December, 2017",
      "ARKA was founded by six seniors from the 2017 class to give students, amateurs, and enthusiasts a place to further their understanding of the cosmos.",
      "/Astro/firstPhoto.png"),
    NewsItem(1,
      "ASTC Astrophotograpgy",
      "2023",
      "We have successfully captured the beauty of space through astrophotography.",
      "/Astro/AstroPhoto2.png"),
    NewsItem(3,
      "WorkShop on Space Science",
      "2025",
      "ASTC has successfully conducted workshops on Space Science.",
      "/Workshops/workshop1.jpg")
  ]

  /** src/data/projects.ts: no entry sets `team`; the empty list stands for it. */
  const Projects: seq<Project> := [
    Project(1,
      "CubeSat Development Project",
      "Designing and building a small satellite for atmospheric data collection.  Our primary technical objective is to build a satellite capable of capturing high-resoluƟon micro-images from orbit, featuring a custom-built Aƫtude DeterminaƟon and Control System (ADCS) for precise pointing.",
      "https://images.pexels.com/photos/23764/pexels-photo.jpg?auto=compress&cs=tinysrgb&w=1260&h=750&dpr=1",
      "Satellites",
      []),
    Project(2,
      "High Altitude Balloon",
      "Launching a balloon to the stratosphere with sensors to collect data about atmospheric conditions at different altitudes.",
      "/projects/weatherbaloon.jpg",
      "Atmospheric Research",
      []),
    Project(3,
      "Aerodynamics Research",
      "Studying airflow patterns around various wing designs to optimize aircraft efficiency.",
      "  /projects/rcWing.jpg",
      "Aeronautics",
      []),
    Project(4,
      "Mars Rover Prototype",
      "Building a scaled model of a Mars rover with autonomous navigation capabilities for rough terrain.",
      "https://images.pexels.com/photos/73910/mars-mars-rover-space-travel-robot-73910.jpeg?auto=compress&cs=tinysrgb&w=1260&h=750&dpr=1",
      "Robotics",
      [])
  ]
}
