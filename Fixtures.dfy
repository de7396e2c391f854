/** What the pages show for the tables the site ships with. */
module Fixtures {
  import opened Types
  import opened Seqs
  import opened Data
  import opened EventsPage
  import opened HomePage
  import opened ProjectsPage

  /** Of the five events, "Upcoming" shows the first three in table order,
      "Past" the other two, and "All" all five. */
  lemma EventViews()
    ensures |Events| == 5
    ensures FilteredEvents(Events, All) == Events
    ensures FilteredEvents(Events, Upcoming) == Events[..3]
    ensures FilteredEvents(Events, Past) == Events[3..]
  {
    UpcomingFirst(Events, 3);
  }

  /** The landing page previews events 1, 2 and 3. */
  lemma HomeTeaser()
    ensures UpcomingEvents(Events) == Events[..3]
    ensures Events[0].id == 1 && Events[1].id == 2 && Events[2].id == 3
  {
    TeaserOfOrderedTable(Events, 3);
  }

  /** The category of each of the four projects, in table order. */
  lemma ProjectCategories()
    ensures CategoryOf(Projects) == ["Satellites", "Atmospheric Research", "Aeronautics", "Robotics"]
  {
    assert |Projects| == 4;
    assert Projects[0].category == "Satellites" && Projects[1].category == "Atmospheric Research";
    assert Projects[2].category == "Aeronautics" && Projects[3].category == "Robotics";
  }

  /** The gallery's buttons: the four categories are all different, so each
      project contributes its own. */
  lemma ProjectButtons()
    ensures CategoryOf(Projects) == ["Satellites", "Atmospheric Research", "Aeronautics", "Robotics"]
    ensures Categories(Projects) == [AllLabel] + CategoryOf(Projects)
  {
    var cats := ["Satellites", "Atmospheric Research", "Aeronautics", "Robotics"];
    assert CategoryOf(Projects) == cats by {
      ProjectCategories();
    }
    assert Distinct(cats) by {
      assert cats[0] != cats[1] && cats[0] != cats[2] && cats[0] != cats[3];
      assert cats[1] != cats[2] && cats[1] != cats[3] && cats[2] != cats[3];
    }
    CategoriesOfDistinct(Projects);
  }

  /** Two different news items share id 1, and the carousel keys its
      slide by that id. */
  lemma NewsIdsCollide()
    ensures NewsItems[0].id == NewsItems[2].id && NewsItems[0] != NewsItems[2]
  {
  }
}
